# Hacocoon, modelled in Dafny

A model of the parts of Hacocoon that keep state across failures, interleavings and parsing loops,
with proofs of what they promise. Check it with `dafny verify dfyconfig.toml`.

## What is modelled

**Git push and its recovery** (`PushStatus`, `Broker`, `PushProtocol`, `PushSafety`, `PushRecovery`,
`PushLatest`). Any number of capability calls run at once through the policy service and the Git
broker. Every audit write may be lost, kept although it reported an error, or torn; the remote may
answer anything; the process may be lost after any step. `pushStatus` is the fold of one log that all
requests share.

**The audit file** (`AuditStream`, `AuditHistory`, `AuditJournal`). `StreamAudit` over arbitrary bytes:
records over the size limit, malformed or unterminated lines, cancellation and refusing callbacks at any
record, and appends between two reads. JSON is a parameter: an encoding without newlines that decoding
undoes. `AuditJournal` ties the bytes that any sequence of `Record` calls leaves to the journal that the
push protocol reasons about.

**Restored workspaces** (`Restore`, `RestoreSafety`, `RestoreRuns`). Restore, cleanup and deletion as
the source runs them, call by call. A fault schedule decides how each backend call and each record
save ends, including "it happened but reported an error", and the trace holds every durable state
between two calls, so that losing the process anywhere is covered.

**Provider routes** (`Base64Url`, `Router`, `Receipt`). Route references over Go's lenient unpadded
base64url (section 5 of RFC 4648, unpadded as its section 3.2 allows), the canonical-form check,
planning and unplanning a snapshot, and the creation receipt against any provider behaviour.

**Workflow YAML** (`FlowText`, `Flow`, `FlowRoundTrip`, `YamlTree`). The look-ahead scanning loops are
proved against an automaton that takes one character at a time; the value parser against a printer; the
indentation stack against "nearest earlier line indented less".

**Tree manifests** (`Manifest`, `ManifestFacts`), **the approval review session** (`Review`), **Host
setup exclusion** (`HostSetup`), **owned client streams** (`Streams`) and **the progress line**
(`Progress`).

Where the source updates variables in a loop or fields of an object, the model has a method or a class
proved equal to a specification function, and the promises are lemmas about that function, most of them
over every run. Where the source leaves something to its surroundings (a clock, a backend, a callback,
the contents of a message) the surroundings are a parameter, and the results hold for all of them.

## What turned out not to hold as promised

- A restored copy whose record says ready can lose its volumes (`ReadyRecordLosesItsVolume`). A restore
  keeps ready records whole exactly when it is given data to prepare, or not all of this happens to its
  publication: the publishing save takes effect but is reported as failed, the marking save after it takes
  none, and one of the deletions that follow does (`RestoreKeepsWholeIff`). Under every fault it does so
  exactly when it is given data to prepare (`WholenessNeedsPrepare`).
- One malformed push request, sent through the general capability API, makes the latest status of its
  environment fail for good (`MalformedRequestBlocks`). In every run that status can be read exactly when
  the log is undamaged, every push request recorded there is well formed, and nothing more is recorded of
  one that brought its own repository owner while it was the latest (`LatestIsReadableIff`).
- Over an arbitrary log, the latest status can succeed where the by-ID status of that same request fails
  (`ReopenedRequestDisagrees`). They agree exactly when the request was opened once and its ID has at most
  256 bytes (`LatestAgreesWithById`). No run opens a request twice, so in every run only the length counts
  (`LatestAgreesInEveryRun`).
- `Record` writes records that `StreamAudit` will not read. A log reads back whole exactly when none of its
  records exceeds the reader's limit (`LogReadsBackIff`); what any calls with any outcomes leave behind reads
  as its journal under the same condition on the readable records (`EveryFileReadsAsItsJournal`).
- The first write of a workspace record can leave it torn (`RecordsCanBeTorn`), and then it cannot be cleaned
  up (`TornRecordStays`). A volume name held by a stranger stops cleanup, even of a restore in which nothing
  failed (`StrangerStopsCleanup`); when its calls succeed, cleanup succeeds exactly when no stranger does
  (`CleanupClears`).
- An incomplete scan can label files with a path that is not an entry, and `read_manifest` refuses the
  result (`IncompleteScanIsRefused`); `AcceptedIff` says exactly when it does. It refuses a complete scan too
  when the manifest is over 64 MiB, and only then (`CompleteScansAreAccepted`).

## Model

| member | source | states |
|---|---|---|
| `PushStatus.Query` | internal/git/push_recovery.go:75-140 | the scan loop, stopped by the first refused record, computes the fold of the readable log; a damaged log is an error |
| `PushStatus.OtherRequestsAreInvisible` | internal/git/push_recovery.go:75-140 | two logs that agree on one request's records give it the same by-ID status, however other requests interleave |
| `PushStatus.FoldSeesOnlyItsRequest` | internal/git/push_recovery.go:84-87 | folding the whole log by ID is folding that request's records alone |
| `PushStatus.LatestAgreesWithById` | internal/git/push_recovery.go:75-140 | the by-ID status of the latest request succeeds exactly when it was opened once and its ID fits, and then equals the latest status |
| `PushStatus.StatusIsRecorded` | internal/git/push_recovery.go:96-130 | dispatch and confirmation in a status each rest on a record of the same request, and the ref and commit are the requested ones |
| `PushStatus.ByIdOpenings` | internal/git/push_recovery.go:91-100 | a successful by-ID scan found its request exactly when the log opens it, and the log opens it at most once |
| `Broker.Broker.Prepare` | internal/git/broker.go:463-466 | registers the operation and marks it active, and leaves prompts and channels alone |
| `Broker.Broker.Execute` | internal/git/broker.go:99-114 | admits exactly the identical request in its own bound context, and only once: admission removes the operation |
| `Broker.Broker.Ask` | internal/git/broker.go:476-489 | publishes a prompt on a new empty channel |
| `Broker.Broker.SubmitDecision` | internal/git/broker.go:525-547 | refuses a missing prompt or a saved choice that disagrees with the answer; otherwise sends once on an empty channel and withdraws the prompt |
| `Broker.Broker.Return` | internal/git/broker.go:467-473 | takes the operation out of all three maps |
| `Broker.PromptedCoherent` | internal/git/broker.go:476-489 | publishing a prompt keeps prompts and channels matched one to one, with every pending channel empty |
| `Broker.DecidedCoherent` | internal/git/broker.go:525-547 | deciding keeps that matching, and no channel ever takes more sends than it has room for |
| `PushProtocol.RequestOf` | internal/git/broker.go:399-420 | the capability request of a proposal carries its operation ID and no repository owner |
| `PushSafety.EveryRunIsSafe` | internal/git/broker.go:306-507 | the invariants of maps, executions, log and attempts hold in every reachable state |
| `PushSafety.PushesAreWrittenAhead` | internal/git/push_recovery.go:43-60 | in every run each external push has its started record in the file, and no request is pushed twice |
| `PushSafety.ConfirmedMeansReceipt` | internal/git/push_recovery.go:112-122 | in every run a confirmed status has an attempt that returned exactly the proposed ref and commit, however often the remote was observed |
| `PushSafety.OperationsExecuteOnce` | internal/git/broker.go:99-114 | in every run a prepared operation executes at most once, for the prepared request, in its own context |
| `PushSafety.DecisionsNeverBlock` | internal/git/broker.go:525-547 | in every run a pending prompt's channel is empty, takes at most one decision ever, and deciding withdraws the prompt |
| `PushSafety.ReturnDisowns` | internal/git/broker.go:467-506 | when `perform` returns, no other call owns its operation |
| `PushSafety.ReturnLeavesNothing` | internal/git/broker.go:463-506 | an operation whose `perform` has returned is in none of the three maps, and no later step brings it back |
| `PushRecovery.EveryRunIsRecoverable` | internal/git/push_recovery.go:75-140 | in every run the by-ID scan of each request keeps in step with the call that writes its records |
| `PushRecovery.SightChangesNoScan` | internal/git/push_recovery.go:192-211 | recording an observation of the remote leaves every by-ID scan unchanged |
| `PushRecovery.StatusCanAlwaysBeRead` | internal/git/push_recovery.go:75-140 | in every run the status of a well-formed push request can be read exactly when the log is undamaged |
| `PushLatest.LatestIsReadableIff` | internal/git/push_recovery.go:75-140 | in every run the latest status of an environment can be read exactly when the log is undamaged and clean there |
| `PushLatest.WellFormedRequestsKeepItReadable` | internal/git/push_recovery.go:75-140 | when every push request recorded in the environment is well formed and brings no owner of its own, only damage keeps the latest status from being read |
| `PushLatest.MalformedRequestBlocks` | internal/git/push_recovery.go:84-90 | a run can record any push request that is not well formed, and in every log that holds one the latest status of its environment is an error |
| `PushLatest.LatestAgreesInEveryRun` | internal/git/push_recovery.go:75-140 | in every run a latest status that is found, under an ID of at most 256 bytes, equals the by-ID status of that request |
| `PushLatest.ReopenedRequestDisagrees` | internal/git/push_recovery.go:91-100 | a log that opens a request, another and the first again has a latest status and no by-ID status for it |
| `PushLatest.EveryRunKeepsLatest` | internal/git/push_recovery.go:75-140 | in every run each request is opened at most once, every call past its opening has it in the log, and the latest scan succeeds exactly on clean logs |
| `AuditStream.LineEnd` | internal/events/service.go:210-218 | the first newline from a position on, with none before it |
| `AuditStream.BufferingIsInvisible` | internal/events/service.go:210-218 | the split function cuts off the same record whatever part of the rest is buffered, or asks for more |
| `AuditStream.StreamFrom` | internal/events/service.go:137-195 | the reading loop computes the specified read from its offset |
| `AuditStream.StreamAudit` | internal/events/service.go:99-196 | refuses exactly the offsets that are no record boundary, and otherwise performs the specified read |
| `AuditHistory.ReadIsExact` | internal/events/service.go:99-196 | a read from a boundary returns a boundary and has acknowledged exactly the records in between, wherever it stopped |
| `AuditHistory.ResumingLosesNothing` | internal/events/service.go:99-196 | any number of interrupted reads, resumed at the returned offsets while the file grows, give with the rest what one read of the final file gives |
| `AuditHistory.LogReadsBackIff` | internal/events/service.go:137-196 | a written log reads back whole exactly when every record fits the reader's limit |
| `AuditHistory.StopsAtFirstUnfit` | internal/events/service.go:154-161 | otherwise the read acknowledges exactly the records before the first one over the limit and reports corruption there |
| `AuditHistory.TornRecordHidesNothing` | internal/policy/audit.go:21-47 | a record cut short hides no record before it and is not acknowledged; a record joined to it is acknowledged exactly when the joined line fits and unmarshals |
| `AuditJournal.JSONLAudit.Record` | internal/policy/audit.go:21-47 | however much of the line reaches the file, the file stays tied to the journal of the push protocol, extended by this event under the matching outcome; success is reported exactly for a written record |
| `AuditJournal.RecordKeepsTied` | internal/policy/audit.go:21-47 | a line of which any part reached the file, synced or not, keeps file and journal tied: readable records in full, then nothing or damage |
| `AuditJournal.FileReadsAsJournalIff` | internal/events/service.go:99-196 | reading a tied file acknowledges exactly the readable records and ends at the end of the file exactly when undamaged, if and only if those records fit the limit |
| `AuditJournal.EveryFileReadsAsItsJournal` | internal/policy/audit.go:21-47 | the same for the bytes left by any sequence of calls with any outcomes |
| `AuditJournal.StatusOfBytes` | internal/git/push_recovery.go:75-140 | the push status computed from those bytes is the status of the journal |
| `Restore.RepositoryService.RestoreWorkspace` | internal/git/restore.go:59-176 | the restore, call by call under any fault schedule, equals its specification |
| `Restore.RepositoryService.Fail` | internal/git/restore.go:106-119 | the rollback closure equals its specification |
| `Restore.RepositoryService.PublishObject` | internal/git/restore.go:154-176 | publication, with and without data to prepare, equals its specification |
| `Restore.RepositoryService.CleanupCopies` | internal/git/restore.go:205-222 | the deletion loop carries on past failures, and releases and removes only after all succeeded |
| `Restore.RepositoryService.CleanupRestoredWorkspace` | internal/git/restore.go:180-203 | cleanup of incomplete, ready, missing and unreadable records equals its specification |
| `Restore.RepositoryService.DeleteRestoredCopy` | internal/git/restore.go:226-249 | deletion of an expected copy equals its specification |
| `RestoreSafety.RestoreSound` | internal/git/restore.go:59-176 | from a sound state, every state a restore passes through is sound; that ready records stay whole needs data to prepare or a publication that does not lose |
| `RestoreSafety.RestoreKeepsWholeIff` | internal/git/restore.go:59-176 | a restore keeps every ready record whole in every state it passes through exactly when it is given data to prepare, or its publishing save is not reported failed after taking effect with the marking save without effect and a deletion with one |
| `RestoreSafety.CleanupSound` | internal/git/restore.go:205-222 | every state a cleanup passes through is sound; success leaves no record and no reservation of the object, and exactly the volumes that it does not name |
| `RestoreSafety.CleanupSpares` | internal/git/restore.go:205-222 | under every fault schedule, in every state a cleanup passes through, all other records and reservations and every volume the object does not name are as they were |
| `RestoreSafety.DeleteRestoredSound` | internal/git/restore.go:226-249 | every state a deletion passes through is sound |
| `RestoreSafety.DeleteWhole` | internal/adapters/incus/repository_delete.go:72-103 | deleting a volume of an unready object takes nothing from a ready one |
| `RestoreSafety.ReserveGood` | internal/git/repository.go:366-385 | reserving a fresh object, even torn, keeps names, owners and reservations in order |
| `RestoreSafety.SaveGood` | internal/git/repository.go:386-413 | replacing a record by one about the same object keeps them in order |
| `RestoreSafety.FinishGood` | internal/state/snapshot_workspace_copy.go:44-60 | releasing a published copy's reservation keeps them in order |
| `RestoreSafety.BeginSound` | internal/state/snapshot_workspace_copy.go:24-39 | taking the reservation, whatever it reports, keeps the state sound |
| `RestoreRuns.VolumesAreNamedAndSourcesHeld` | internal/git/restore.go:103-171 | in every state any run leaves, each restored volume is named by a record, and a never published copy with a volume holds its own source |
| `RestoreRuns.ReadyCopiesAreWhole` | internal/git/restore.go:139-171 | a ready record has all its volumes created and inspected, in every run none of whose restores loses its publication; restores given data to prepare never do |
| `RestoreRuns.ReadyRecordLosesItsVolume` | internal/git/restore.go:106-119 | one schedule of two save faults leaves a ready record without its volume |
| `RestoreRuns.WholenessNeedsPrepare` | internal/git/restore.go:154-171 | a restore keeps ready records whole under every fault exactly when it is given data to prepare |
| `RestoreRuns.CleanupClears` | internal/git/restore.go:180-222 | whatever fails, cleanup of an incomplete copy spares everything of others; success has removed exactly its volumes, reservation and record; when its calls succeed it succeeds exactly if no stranger holds a name |
| `RestoreRuns.StrangerStopsCleanup` | internal/git/restore.go:205-222 | after a restore without any fault onto a name a stranger holds, no schedule lets cleanup succeed |
| `RestoreRuns.CleanupKeepsReadyCopies` | internal/git/restore.go:180-203 | cleanup of a ready copy never changes a record or volume, and success has released the source |
| `RestoreRuns.TornRecordStays` | internal/git/repository.go:332-348 | a torn first record holds no reservation, and cleanup leaves it as it is |
| `RestoreRuns.RecordsCanBeTorn` | internal/git/repository.go:366-385 | a run whose first write is cut short leaves such a record |
| `Base64Url.RoundTrip` | internal/env/router.go:262-264 | decoding undoes encoding for every byte string, and encoded text is canonical |
| `Base64Url.CanonicalIff` | internal/env/snapshot.go:62-64 | text re-encodes to itself exactly when it has only symbols, whole groups and no leftover bits |
| `Base64Url.DecoderIsLenient` | internal/env/router.go:288-291 | a stray bit or a line break decodes like the canonical text |
| `Router.Register` | internal/env/router.go:63-73 | accepts exactly acceptable registrations with different IDs and maps each to its provider; otherwise the error of the first refused one |
| `Router.NewRouter` | internal/env/router.go:58-78 | succeeds exactly when the trimmed default is one of acceptable, distinct registrations |
| `Router.RouteRoundTrip` | internal/env/router.go:262-293 | for every acceptable provider ID and nonempty native reference, decoding gives the pair back |
| `Router.MatchesOnlyItsPair` | internal/env/router.go:266-271 | an encoded reference matches its own pair and no other |
| `Router.RoutesAreWellFormed` | internal/env/router.go:273-293 | whatever decodes has a nonempty provider without a colon and a nonempty native reference |
| `Router.ReencodesIffCanonical` | internal/env/snapshot.go:54-71 | a reference equals the re-encoding of what it decodes to exactly when its payload is canonical |
| `Router.LenientSpelling` | internal/env/router.go:273-293 | the router itself resolves two different spellings to one object |
| `Router.AcceptedIffCanonical` | internal/env/snapshot.go:54-71 | component references are accepted exactly for registered, capable providers in canonical form |
| `Router.AcceptedReferencesAreUnique` | internal/env/snapshot_restore.go:36-53 | two accepted references resolve to the same object exactly when they are equal |
| `Router.EncodeRouteInjective` | internal/env/router.go:262-264 | different native references of a provider have different route references |
| `Router.PlanSnapshot` | internal/env/snapshot.go:31-53 | the loop over the copied slice qualifies every planned component, or refuses an empty or already qualified one |
| `Router.NativeSavedSnapshot` | internal/env/snapshot_restore.go:14-35 | resolves the source, then gives every component's native form or the first error |
| `Router.RewriteEach` | internal/env/snapshot_restore.go:23-33 | rewriting a copied slice in place, stopping at the first error |
| `Router.UnplanUndoesPlan` | internal/env/snapshot_restore.go:14-35 | for every planned list, unplanning gives the provider's own components back in order |
| `Router.AcceptedIsQualified` | internal/env/snapshot_restore.go:14-35 | every saved list that is accepted is the qualified form of its native list |
| `Receipt.Creation.Receive` | internal/env/creation_receipt.go:52-63 | the captured variables after any calls: only the first is qualified and recorded, a second poisons the creation |
| `Receipt.RouteCreationReceipt` | internal/env/creation_receipt.go:40-75 | for every provider behaviour `record` runs at most once, on the first receipt; success is exactly one recorded receipt for the native reference that is returned |
| `FlowText.SplitFlowItems` | tools/check_workflow_policy.py:85-124 | the look-ahead loop splits as the one-character automaton does, with the same errors |
| `FlowText.SplitLosesNothing` | tools/check_workflow_policy.py:85-124 | cuts are exactly the commas outside all quotes and brackets, and the pieces joined by commas are the text |
| `FlowText.SplitsIffBalanced` | tools/check_workflow_policy.py:113-122 | text splits exactly when all quotes and brackets close and none closes before it opens |
| `FlowText.SkipFollows` | tools/check_workflow_policy.py:93-108 | skipping a doubled quote or an escape as two characters is what the automaton does |
| `FlowText.SplitKeyValue` | tools/check_workflow_policy.py:127-159 | finds the first top-level colon that ends the text or precedes white space |
| `FlowText.StripComment` | tools/check_workflow_policy.py:54-82 | cuts at the first unquoted hash that starts the text or follows white space |
| `FlowRoundTrip.RoundTrip` | tools/check_workflow_policy.py:162-219 | every nested list and mapping of strings, booleans and nulls with distinct nonempty keys parses back from its printed form |
| `FlowRoundTrip.SplitJoined` | tools/check_workflow_policy.py:85-124 | splitting printed items joined by commas gives the items |
| `FlowRoundTrip.UnquoteQuote` | tools/check_workflow_policy.py:162-173 | unquoting undoes single-quoting for every string |
| `FlowRoundTrip.EntrySplits` | tools/check_workflow_policy.py:196-206 | a printed entry splits into its quoted key and its value, whatever they contain |
| `YamlTree.Nearest` | tools/check_workflow_policy.py:266-268 | the nearest node at or before a position that is indented less, or the root, with none in between |
| `YamlTree.Pop` | tools/check_workflow_policy.py:266-268 | popping the stack leaves the ancestor chain of the nearest less indented node |
| `YamlTree.Place` | tools/check_workflow_policy.py:266-278 | a kept line is linked under that node and pushed |
| `YamlTree.ParseLines` | tools/check_workflow_policy.py:227-282 | the loop keeps one node per kept line, in order, or stops at the first bad line |
| `YamlTree.ParseTree` | tools/check_workflow_policy.py:222-288 | each node's parent is the nearest earlier kept line of smaller indentation or the root, children are in line order, and the walk lists the nodes in line order |
| `YamlTree.WalkInLineOrder` | tools/check_workflow_policy.py:285-288 | the preorder walk of any tree linked that way lists its nodes in line order |
| `Manifest.ScanTree` | tools/evacuation_compare.py:82-162 | the entries are those of the rows read, labelled as specified; complete exactly when all rows were read and nothing changed |
| `Manifest.Note` | tools/evacuation_compare.py:129-131 | `setdefault` labels a file by the first row that noted it |
| `Manifest.Gather` | tools/evacuation_compare.py:155-158 | gathers the members of every label |
| `Manifest.Trim` | tools/evacuation_compare.py:159-161 | takes the label off every lone member, and off no other |
| `Manifest.LoneIffNotShared` | tools/evacuation_compare.py:155-161 | a label has one member exactly when no other link of the file was read |
| `ManifestFacts.EnumerationDoesNotMatter` | tools/evacuation_compare.py:77 | two sorted inventories with the same rows are equal |
| `ManifestFacts.LabelsShareFiles` | tools/evacuation_compare.py:116-161 | two entries share a label exactly when they are links of one file |
| `ManifestFacts.LabelIsFirstPath` | tools/evacuation_compare.py:116-161 | in a complete scan a label is the first path of its group, which has at least two members and labels itself |
| `ManifestFacts.LabelsIgnoreNumbers` | tools/evacuation_compare.py:116-161 | complete manifests depend on which paths are the same file: not on device and inode numbers, and not on link counts beyond the links in the tree |
| `ManifestFacts.OutsideLinksAreIgnored` | tools/evacuation_compare.py:154-161 | a lone file with a link from outside has the manifest of its copy without one |
| `ManifestFacts.AcceptedIff` | tools/evacuation_compare.py:167-204 | a scan's manifest is read back exactly when it is at most 64 MiB, the root was read and so was the first link of each file with two links read |
| `ManifestFacts.CompleteScansAreAccepted` | tools/evacuation_compare.py:167-204 | a complete scan is read back exactly when its manifest is at most 64 MiB |
| `ManifestFacts.IncompleteScanIsRefused` | tools/evacuation_compare.py:129-136 | a first link that changes after it was noted makes an unreadable manifest |
| `ManifestFacts.CompareManifests` | tools/evacuation_compare.py:207-216 | a match is exactly two complete manifests with equal entries; the report holds every differing path with its differing fields |
| `Review.EveryRunIsOrderly` | clients/vscode-notify/review.js:62-138 | in every run requests are sent one at a time and numbered in order, a ready open session either awaits an answer or has a poll scheduled, and every decision carries the ID and token of a different accepted selection |
| `Review.RequestsAreNumbered` | clients/vscode-notify/review.js:77-85 | in orderly traffic the sequence numbers increase strictly |
| `Review.ClosedSessionsAreSilent` | clients/vscode-notify/review.js:64-138 | whatever events reach a session that was stopped, its traffic, accepted selections and decisions stay as they are and no poll is scheduled |
| `Review.ClosedRunsAreSilent` | clients/vscode-notify/review.js:64-138 | once a run has closed its session, every longer run has the same traffic |
| `Review.SendKeeps` | clients/vscode-notify/review.js:77-85 | `send` keeps the invariants whenever nothing is in flight |
| `Review.ReceiveKeeps` | clients/vscode-notify/review.js:92-118 | `receive` keeps them for every reply |
| `Review.HandleKeeps` | clients/vscode-notify/review.js:119-138 | the panel's messages keep them |
| `Review.ReviewSession.SendRequest` | clients/vscode-notify/review.js:77-85 | the handler updates the session as specified |
| `Review.ReviewSession.ReceiveReply` | clients/vscode-notify/review.js:92-118 | likewise for replies, including the selection a notification asked for |
| `Review.ReviewSession.OnMessage` | clients/vscode-notify/review.js:119-138 | likewise for messages, including which decisions may be saved |
| `Review.Drive` | clients/vscode-notify/review.js:62-138 | a session fed any events ends in the specified state, with the invariants |
| `HostSetup.App.Try` | internal/composition/host_setup.go:61-81 | the critical section takes the setup exactly when it is free and the caller is not cancelled |
| `HostSetup.App.Release` | internal/composition/host_setup.go:71-76 | the release frees the setup and closes its channel |
| `HostSetup.OneHolder` | internal/composition/host_setup.go:59-88 | under every interleaving there is at most one holder, the stored channel is set exactly while there is one, and every other channel was closed exactly once |
| `HostSetup.NoWaiterIsStranded` | internal/composition/host_setup.go:78-87 | a waiter can go on at once, or as soon as the holder releases |
| `HostSetup.OnlyReleaseFrees` | internal/composition/host_setup.go:57-58 | only the holder's release frees the setup; cancelling never does |
| `Streams.Service.TrackStream` | internal/client/stream_ownership.go:20-32 | adds the stream under its binding and changes nothing else |
| `Streams.Service.CloseStreams` | internal/client/stream_ownership.go:33-61 | the closing loop, each close forgetting its own stream, ends with exactly that binding gone from the registry and exactly its streams no longer open |
| `Streams.Service.Forget` | internal/client/stream_ownership.go:50-61 | removes the stream, and the binding with its last stream |
| `Streams.RevokedGrantsHaveNoOpenStream` | internal/client/service.go:104-112 | in every run, no stream of a binding whose grant is revoked is open |
| `Streams.OtherBindingsAreUntouched` | internal/client/stream_ownership.go:33-61 | no step of a revocation, closing and forgetting included, changes a stream, a registered set or a grant of another binding |
| `Streams.RegistryIsTheOpenStreams` | internal/client/stream_ownership.go:50-61 | the registry never holds an empty set, and once closes finish it holds exactly the open streams |
| `Streams.RevocationNeverSticks` | internal/client/stream_ownership.go:33-43 | a revocation that has collected its streams can always close, forget or finish |
| `Progress.RepositoryProgressWriter.WriteChunk` | internal/cli/repository.go:173-189 | the loop renders the complete pending lines up to the first failure, and ends because the pending bytes shrink |
| `Progress.RepositoryProgressWriter.RenderLine` | internal/cli/repository.go:210-230 | one line, with a line break when the stage changes, under any write failure |
| `Progress.RepositoryProgressWriter.Close` | internal/cli/repository.go:191-208 | the last partial line and the final line break |
| `Progress.DrainTwice` | internal/cli/repository.go:177-188 | draining what is pending and then more is draining all of it |
| `Progress.ChunkingDoesNotMatter` | internal/cli/repository.go:173-230 | when no write fails, the output after `Finish` depends only on the bytes; off a terminal it is those bytes |

## Left out

- Incus, Git, HTTP, socket and SSH calls: only how they can end is modelled.
- JSON, SHA-256 and the formats of IDs, digests and choices inside messages: parameters, or values of a type that holds only well-formed ones.
- The capability service beyond the order of its audit records, approval and execution (internal/policy/service.go): policy evaluation is any choice of answers.
- Deleting a whole workspace that was restored: only the restored copy's own deletion is modelled.
- `splitlines` and file reading in the YAML checker: the parser starts from a list of lines, and its nodes are numbered instead of being linked objects.
- `_materialize` and the policy checks over the tree: they would add only easy members.
- File inventory, descriptors, budgets and clocks in the tree scan: a row says how reading it ended, and the paths it lists are assumed valid and distinct. The order of the comparison report is not modelled.
- The review panel's messages to its view, the child process and its output buffer: a line arrives whole or the session is lost.
- `DialStream`'s retries and timeouts: a dial succeeds or fails.
- How JSON text is sized and joined: the size of a manifest's JSON is a parameter of `Accepted`, and `FileReadsAsJournalIff`, `EveryFileReadsAsItsJournal` and `StatusOfBytes` are for encodings in which a record joined to an earlier fragment never unmarshals; `TornRecordHidesNothing` covers both cases.
- Partial writes to the terminal: a write happens or fails.
- The rest of the repository: CLI, documentation and release checkers, environment lifecycle, images, networking.
