# Verified models of the repository's operational protocols

This Dafny project models the parts of the repository whose correctness is a matter of order, interruption and
retry, and proves what they promise:

- **Freeze, kill, thaw** (`Transitions`, `Explorer`, `Replay`, `Freeze*`). The labelled transition system of the
  cgroup freezer protocol with its four owner designs, and the explorer that enumerates it. Runs have any length and
  scenarios are all values of the eight flags, including a stuck task that is never released.
- **Release publication** (`Delivery*`, `Versions`, `Backfill`). One writer publishes versioned releases and rolling
  aliases to a remote that is a set of maps; the program may be cut off before any remote effect and run again.
- **The lab runner** (`InterruptFrames`, `LabEngine`, `LabScript`, `LabRun`). One container is created, used and removed
  through an engine that may lose answers, answer wrongly where nothing forces it to be truthful, and make a pending
  container late; signals arrive at any time.
- **SimpleX reset and relay settings** (`SimplexDisk`, `SimplexReset`, `SimplexRelays`, `SimplexConfigure`). Two
  durable-intent protocols, cut off before any effect and retried.
- **Codecs and layouts** (`Bech32`, `Digits`, `Npub`, `NpubExample`, `Wire`, `ToolCalls`, `Dashboard`). The strict `npub` decoder
  (BIP-173, section "Bech32"; NIP-19, section "Bare keys and ids"), the protobuf wire format ("Base 128 Varints" and
  "Message Structure" of the Protocol Buffers encoding guide), the tool-call accumulator and the dashboard check.

A cut-off (`CutOff`) is a budget of effects: `None` means none is scheduled, `Some(n)` means that the run ends before
effect `n + 1`. Nondeterminism (the engine's answers, the daemon's settings, arriving signals) is a havoc constrained by a
named predicate, so each theorem covers every behaviour within the rules. `dafny verify dfyconfig.toml` checks the
whole project.

## What the code does that its description does not say

- With refused thaws the reconciled owner does not always end unresolved: when the deadline passes before FreezeUnit is
  submitted it finishes, and a successor may be admitted. With systemd alive it ends unresolved exactly when FreezeUnit
  was submitted (`FreezeMatrix.ThawErrorMayFinish`, `FreezeMatrix.ThawErrorOutcome`); with systemd stalled a submitted
  freeze leaves it waiting (`FreezeMatrix.ReconciledEnds`).
- A build output that itself is called `release.json` can never be published: a first, uncut publication succeeds
  exactly when there is none (`DeliveryHistory.PublishFirst`), and such an output meets every demand of a build
  (`DeliveryHistory.ClashPossible`).
- Clearing SimpleX sessions removes a request dump exactly when a cleared ID and an underscore start its session's ID and
  suffix, or its name is the transcript of a cleared session; so disjoint IDs are not enough
  (`SimplexDisk.DumpsKept`, `SimplexDisk.SharedPrefix`). It removes a `.json` transcript exactly when its own session is
  cleared or that session's ID has the form of a cleared session's request dump (`SimplexDisk.TranscriptsKept`).
- A session called `sessions` takes the shared mirror file with it, other platforms' entries included
  (`SimplexDisk.OthersKeptIff`, `SimplexDisk.MirrorLost`).

## Assumptions

- The lab engine: a successful inspection by ID shows the container as it is; "no such container" means it is absent; a
  successful listing by label lists exactly the labelled containers; no removal touches another ID, though none need
  remove its own; a Conflict answer means that nothing was created; one create makes at most one container;
  labels never change and only this run's create uses its nonce. Every other answer is arbitrary.
- The SimpleX database: deleting a session takes its family (itself and what the deletion API names), and the family of
  a member lies inside. Other platforms may do anything between attempts but add or remove what is SimpleX's, or touch
  the reset marker and the state directory.
- The relay daemon: its settings change only through a settings write or by the owner between two attempts.
- One writer publishes at a time. SHA-256 is injective, and no release document lists its own digest: a digest is the
  content under a constructor. The second is what makes a build output called `release.json` fail for certain.

## Model

| member | source | states |
|---|---|---|
| Transitions.Invariant | scripts/kata_freeze_model.py:350-413 | a property that holds at the start and across every step holds in every reachable state of any transition system |
| Transitions.ViolatesIffCarried | scripts/kata_freeze_model.py:379-413 | a violation kind has a trace exactly when some reachable step or quiescent state carries it |
| Explorer.Explore | scripts/kata_freeze_model.py:379-413 | for any finitely branching system, when the limit is not hit: the states seen are exactly the reachable ones, the quiescent count and outcomes are exactly those of the reachable states that enable nothing, a kind is reported exactly when some run shows it, and its trace is as short as any; the limit is hit only with more than max(limit, 1) reachable states |
| Explorer.Trace | scripts/kata_freeze_model.py:387-392 | the labels read back through the parent table are those of the path to the state, followed by the last label |
| Explorer.Visit | scripts/kata_freeze_model.py:405-412 | an edge's target joins the parent table and the back of the queue exactly when unseen, keeping every path a shortest one |
| Explorer.Expand | scripts/kata_freeze_model.py:393-412 | after a state's edges are processed its successors are known, its kinds have traces no longer than one through it, and nothing known before changes |
| Replay.Replay | scripts/kata_freeze_model.py:364-376 | follows each label only if exactly one enabled step carries it and accepts a quiescence mark only in a quiescent state |
| Replay.ReplayAccepts | scripts/kata_freeze_model.py:364-376 | with unique labels every trace that shows a kind replays, to the target of the violating step or to the quiescent state that carries it |
| Replay.ReplaySound | scripts/kata_freeze_model.py:364-376 | whatever a replay accepts ends in a reachable state |
| Replay.ReplayExactly | scripts/kata_freeze_model.py:364-376 | a replay accepts items and ends in a state if and only if each item leads on, a label by the one step that carries it and a quiescence mark only from a state without steps |
| FreezeLabels.LabelsUnique | scripts/kata_freeze_model.py:176-201 | in every reachable state of every design no two enabled steps share a label |
| FreezeReconciled.ReachableInv | scripts/kata_freeze_model.py:313-342 | the invariant that says where each call is (queue, inbox, pending or answered) and what the kernel and the owner may then be doing, on every run and in every scenario |
| FreezeMatrix.ReconciledSafe | scripts/kata_freeze_model.py:313-361 | no run of the reconciled owner, in any scenario, is late-op, successor-touched, false-terminal, dishonest-success or ends stranded or stalled |
| FreezeMatrix.ReconciledThawAfterFreeze | scripts/kata_freeze_model.py:313-342 | once a thaw was sent the freeze is pending at systemd or answered, in no queue and no inbox, whatever the delivery order |
| FreezeMatrix.ReconciledFences | scripts/kata_freeze_model.py:203-208 | while cgroup.freeze is 1 the owner is not done and no successor was admitted; an admitted successor finds every call answered and the cgroup not frozen |
| FreezeMatrix.ReconciledEnds | scripts/kata_freeze_model.py:313-361 | every run that can go no further is in one of four ends, told apart by the scenario and by whether FreezeUnit was sent |
| FreezeMatrix.ReconciledFinishes | scripts/kata_freeze_model.py:313-342 | with systemd alive and no thaw error every complete run ends with a terminal outcome, every call answered and the cgroup thawed, and the caller is told ok or error exactly by whether the freeze was answered and everybody killed, unless its deadline had passed |
| FreezeHost.ReachableTells | scripts/kata_freeze_model.py:138-288 | on every run of every design the caller is told exactly how the generation ended, and before its end nothing, or that the deadline passed and the owner goes on |
| FreezeKinds.SucceedsIff | scripts/kata_freeze_model.py:211-342 | a design can report success exactly when systemd is alive, the kernel can come to freeze the cgroup and its processes can be listed; the owner designs only when thaws are not refused |
| FreezeMatrix.ThawErrorMayFinish | scripts/kata_freeze_model.py:313-326 | for every scenario with thaw errors there is a run that finishes aborted-before-submit, and with reuse admits a successor |
| FreezeMatrix.ThawErrorOutcome | scripts/kata_freeze_model.py:313-342 | with systemd alive and thaw errors a complete run is unresolved if and only if FreezeUnit was submitted, and an unresolved one has no successor |
| FreezeTermination.StepRank | scripts/kata_freeze_model.py:176-347 | every step of every actor and of the environment lowers one explicit rank, in every design and scenario |
| FreezeTermination.RunsFinite | scripts/kata_freeze_model.py:345-351 | no run is longer than 43 steps and no owner run longer than 28 |
| FreezeTermination.LeadsToQuiescence | scripts/kata_freeze_model.py:354-361 | every run goes on to a quiescent state through states that keep any given stable property |
| FreezeOrdered.Safe | scripts/kata_freeze_model.py:291-310 | the ordered owner has no violation on any run when delivery is first-in first-out and thaws are not refused |
| FreezeWitness.OrderedUnordered | scripts/kata_freeze_model.py:185-189 | without first-in first-out delivery one run of the ordered owner is false-terminal at one step, late-op at a later one, and then ends stranded, in every scenario with systemd alive |
| FreezeWitness.OrderedRefused | scripts/kata_freeze_model.py:291-310 | with refused thaws the ordered owner has a false-terminal run and one that ends stranded |
| FreezeHandler.Safe | scripts/kata_freeze_model.py:211-245 | the handler-scoped design has no violation when nothing makes the handler return before its thaw is answered |
| FreezeWitness.HandlerNeverReleased | scripts/kata_freeze_model.py:211-245 | a stuck task that is never released breaks the handler-scoped design |
| FreezeWitness.HandlerDropped | scripts/kata_freeze_model.py:211-245 | so does a caller that stops waiting for the lock |
| FreezeWitness.HandlerEnumerationFails | scripts/kata_freeze_model.py:211-245 | so does a failing process listing |
| FreezeRuns.HandlerSucceeds | scripts/kata_freeze_model.py:211-245 | when freezing, listing and killing go well the handler-scoped design reports success, and with refused thaws it does so dishonestly and leaves the cgroup stranded |
| FreezeWitness.DetachedLate | scripts/kata_freeze_model.py:248-279 | the detached design goes wrong in every scenario with systemd alive |
| FreezeRuns.DetachedOvertaken | scripts/kata_freeze_model.py:248-279 | a queued freeze overtaken by the thaw: the generation ends with a call unanswered, the freeze lands late, perhaps on a successor, and strands the cgroup |
| FreezeStalled.Safe | scripts/kata_freeze_model.py:152-173 | with systemd stalled no design has a violating run |
| FreezeKinds.ViolatesIff | scripts/kata_freeze_model.py:428-444 | for every design and every kind of violation, the exact scenarios, read off the flags, in which some run exhibits it |
| FreezeMatrix.SafeIffStands | scripts/kata_freeze_model.py:416-425 | for each design the exact scenarios, read off the flags, in which none of its runs violates anything |
| FreezeMatrix.ExploreDesign | scripts/kata_freeze_model.py:428-444 | a complete exploration of a design reports exactly the kinds of the table, each by a trace that replays and is as short as any, exactly as many states and quiescent states as there are, and exactly the outcomes of the quiescent ones, field by field; it gives up only with more reachable states seen than the limit allows |
| DeliveryNames.VersionTagIsNoAlias | scripts/delivery.py:522-560 | no version tag of a component is any component's rolling alias tag |
| DeliveryNames.MetadataPathInjective | scripts/delivery.py:304-316 | different component versions have different metadata files |
| DeliveryNames.ValidVersionExactly | scripts/delivery.py:28-28 | a version is three numbers with dots between them and perhaps a suffix that a hyphen or a plus begins, and nothing else |
| DeliveryNames.ValidSourceShaExactly | scripts/delivery.py:27-27 | a source is named by forty lower-case hexadecimal digits |
| DeliveryNames.NamesExample | scripts/delivery.py:304-316 | the tag, the alias and the metadata file of one version, letter for letter |
| DeliveryRelease.IndexRecords | scripts/delivery.py:148-213 | the loop fills a dictionary of the asset records exactly when no name repeats |
| DeliveryRelease.ValidatedRelease | scripts/delivery.py:148-213 | accepts a downloaded release exactly when its document states the expected facts, its records name exactly the other files with their digests and sizes, and the checksum files pair up |
| DeliveryRelease.PublishedComplete | scripts/delivery.py:148-235 | what a publication leaves is a complete release, whichever run recorded the metadata first |
| DeliveryRemote.Repository.PutFile | scripts/delivery.py:340-357 | records a new metadata file under a fresh commit, in one effect or not at all |
| DeliveryCommands.EnsureMetadataCommit | scripts/delivery.py:304-357 | writes the metadata when absent, accepts the recorded one when its facts agree, and never changes a recorded file |
| DeliveryCommands.EnsureTag | scripts/delivery.py:359-409 | creates a missing tag, moves one only when it may move, and otherwise accepts it only at the wanted commit |
| DeliveryCommands.PublishAlias | scripts/delivery.py:412-489 | from any earlier, mixed alias state the alias release ends up with exactly the given assets; wherever it is cut off, at most one wanted file that the alias had is missing, and everything outside the alias is left alone |
| DeliveryCommands.DeleteObsolete | scripts/delivery.py:450-462 | only assets outside the wanted names are deleted, the wanted ones stay as they are, and on success no other is left |
| DeliveryCommands.UploadNew | scripts/delivery.py:677-728 | uploads a prefix of the files, one effect each, and refuses only what is a repeated or present name |
| DeliveryPublish.PromoteReleaseAlias | scripts/delivery.py:522-596 | on success the alias tag names the version's metadata commit and the alias carries the versioned release's files name for name and byte for byte; the versioned release is untouched |
| DeliveryPublish.FillRelease | scripts/delivery.py:672-728 | a release under the version tag only ever gains wanted files, and on success holds exactly the wanted ones |
| DeliveryPublish.PublishRelease | scripts/delivery.py:599-760 | one publication, cut off anywhere: it only adds, and only in its own place; without a refresh the alias stays exactly as it was; from any cut-off state of the same facts it is not refused and stays retryable; a complete release is left as it is; contradicting facts are refused without effect |
| DeliveryPublish.ClashFails | scripts/delivery.py:599-671 | with a built file called release.json no recorded metadata can match what would be uploaded |
| DeliveryHistory.RunHistory | scripts/delivery.py:522-760 | over any history of publications and promotions, each cut off anywhere, no metadata file, version tag or released asset is ever lost or changed, a version that no call is for stays exactly as it is, and so does an alias that no call is to move |
| DeliveryHistory.OthersKept | scripts/delivery.py:522-760 | a call for one version leaves the tag, metadata and assets of every other version as they are |
| DeliveryHistory.SamePlaceCompatible | scripts/delivery.py:599-760 | whether a version can be published, or is published, depends on nothing but its own tag, metadata and assets |
| DeliveryHistory.VersionImmutable | scripts/delivery.py:304-409 | what that says of one version: its tag keeps its target, its metadata its bytes and commit, and each of its assets its bytes |
| DeliveryHistory.PublishWithRetries | scripts/delivery.py:599-760 | from any cut-off point retries with the same files and source, under any run ids, end in the published release as soon as one attempt is not cut off, whatever calls for other versions come in between; with a refresh the alias is current too |
| DeliveryHistory.PublishedIsComplete | scripts/delivery.py:492-519 | a published release passes the completeness check for its source |
| DeliveryHistory.RebuildLeavesRelease | scripts/delivery.py:621-671 | after a success, publishing other bytes of the same source is accepted and changes nothing of the version |
| DeliveryHistory.OtherSourceRefused | scripts/delivery.py:304-330 | after a success, the same version from another source is refused without effect |
| DeliveryHistory.PublishAgain | scripts/delivery.py:599-671 | a publication from a compatible state is not refused; after it succeeds, one with other bytes of the same source is accepted and leaves release, metadata and tag as they are, and one from another source is refused without effect, wherever the second is cut off |
| DeliveryHistory.ClashPossible | scripts/delivery.py:70-110 | a build output with a file called release.json exists that meets every demand of a build |
| DeliveryHistory.PublishFirst | scripts/delivery.py:599-760 | a first uncut publication succeeds if and only if no built file is called release.json |
| Backfill.NoteNewest | scripts/backfill_releases.py:153-184 | the table keeps each component's numerically greatest version so far |
| Backfill.RunBackfill | scripts/backfill_releases.py:152-200 | a backfill that succeeds leaves every candidate component's alias at its greatest version, complete and byte for byte, and other components' aliases as they were; from a remote that contradicts no candidate it fails only by being cut off, and leaves such a remote |
| Backfill.BackfillWithRetries | scripts/backfill_releases.py:152-200 | from such a remote, with different versions that can be built and hold no release.json, backfills cut off anywhere and started again publish every candidate and bring every alias to its greatest version as soon as one is not cut off |
| Backfill.NewestIsGreatest | scripts/backfill_releases.py:164-187 | the version a backfill promotes is the greatest as a number, in any base that the minor and patch numbers stay below |
| Backfill.CliAssetsExactly | scripts/backfill_releases.py:59-65 | exactly the assets stay behind whose name holds "electron" in any case, or is the desktop update list |
| Versions.LessIsNumeric | scripts/backfill_releases.py:28-43 | versions are ordered as the numbers that their three parts spell |
| Versions.FactsExactly | scripts/backfill_releases.py:43-56 | a tag states a component and its version exactly when it is the component, "/v" and a string that the version is read from |
| Versions.ReadExactly | scripts/backfill_releases.py:20-23 | three numbers are read from exactly the strings that spell them with dots between, leading zeros or not |
| Versions.TagTells | scripts/backfill_releases.py:46-56 | the tag that a version is published under gives back its component and its three numbers |
| Versions.ShowVersionInjective | scripts/backfill_releases.py:46-56 | different version numbers are written differently |
| Versions.ShownIsValid | scripts/backfill_releases.py:46-56 | every version that a tag states can be published under its written form |
| Versions.VersionExample | scripts/backfill_releases.py:22-25 | fsite/v01.20.3 is version 1.20.3 of fsite, major, minor and patch in this order |
| InterruptFrames.SignalsKept | scripts/kata_lifecycle_lab.py:84-113 | over any well-nested pushes, pops and signals some frame holds a signal exactly when one was held or has arrived, while none ignores |
| InterruptFrames.BottomHoldsSignal | scripts/kata_lifecycle_lab.py:604-647 | back at the bottom frame it holds a signal if and only if one arrived since it was pushed |
| InterruptFrames.IgnoredNeverRaises | scripts/kata_lifecycle_lab.py:84-113 | once the bottom frame ignores signals and holds none, no frame opened later raises |
| LabEngine.AnswersTell | scripts/kata_lifecycle_lab.py:347-360 | what each answer proves about this run's containers: an exact confirmation or a conflict settles the create, an empty listing means none exists |
| LabEngine.FencedForever | scripts/kata_lifecycle_lab.py:1-31 | once no create is pending and no labelled container exists, none ever appears again |
| LabEngine.PendingMayAppear | scripts/kata_lifecycle_lab.py:16-18 | an empty inventory does not fence a pending create: its container may appear next |
| LabEngine.CreateMayLinger | scripts/kata_lifecycle_lab.py:379-406 | after any answer to the create but a conflict it may still be pending with an empty inventory |
| LabEngine.Engine.Remaining | scripts/kata_lifecycle_lab.py:297-309 | an experiment step is stopped exactly when a signal arrived while the run still listens; later phases are never interrupted here; otherwise a step is refused exactly when the budget of its own phase is used up |
| LabEngine.Engine.Submit | scripts/kata_lifecycle_lab.py:152-176 | one command in its own frame: the call is recorded, the answer is lost if the call raises, and it raises an interruption only if a signal arrived and the run still listens |
| LabEngine.Engine.Shield | scripts/kata_lifecycle_lab.py:632-635 | switching to ignoring tells exactly whether a signal arrived before, and keeps the history up to then |
| LabRun.LabRun.InspectExact | scripts/kata_lifecycle_lab.py:347-353 | a match means that the engine showed exactly this run's name and both labels, and then the create is settled; a malformed ID is never sent |
| LabRun.LabRun.LabelMatches | scripts/kata_lifecycle_lab.py:355-360 | a failed listing or one with a malformed ID counts as no listing |
| LabRun.LabRun.Preflight | scripts/kata_lifecycle_lab.py:362-377 | the create is reached only with the name and the label just seen free, and then none of the run's containers exists; undisturbed, each check is made exactly when the one before it went well |
| LabRun.LabRun.CreateContainer | scripts/kata_lifecycle_lab.py:379-406 | returns only with an exactly confirmed container; a conflict settles the create and any other loss stays an open obligation; undisturbed, the create is always sent, and confirmed or looked for by label |
| LabRun.LabRun.RunStages | scripts/kata_lifecycle_lab.py:604-631 | undisturbed, the stages make exactly the calls of their plan: the release follows even a failed experiment, the last observation only a good one, and diagnostics follow whatever is not a defect |
| LabRun.LabRun.ReconcileCreate | scripts/kata_lifecycle_lab.py:408-416 | lists by label once; a single listed ID is inspected and adopted if and only if it confirms exactly, and anything else leaves the obligation open |
| LabRun.LabRun.RemoveConfirmed | scripts/kata_lifecycle_lab.py:429-435 | a removal is sent for the exact ID that the call just before confirmed |
| LabRun.LabRun.AuditCleanup | scripts/kata_lifecycle_lab.py:442-454 | the audit passes exactly on an empty label listing followed by the owned ID being gone, and with no open create nothing of the run is left then |
| LabRun.LabRun.Teardown | scripts/kata_lifecycle_lab.py:418-454 | cleanup is clean exactly when the create is settled and the cleanup calls were answered as removal or absence, empty listing and absence; an open create is looked for by label, and, even when the reconciliation budget is used up, the owned container is inspected and, if confirmed, removed, and then both are looked for |
| LabRun.LabRun.Execute | scripts/kata_lifecycle_lab.py:604-656 | the exit code is other than 3 if and only if the answers settle the create and show the clean end, and then no container of the run exists and none is pending; removals follow their exact confirmation and one create follows both freeness checks; the status is interrupted if and only if the history up to finalization holds a signal, and complete only after an exact confirmation; no experiment command is sent once a signal had come by the end of the call before it, and none at all since finalization; nothing raises; a run without a signal, a raising call or a used-up budget makes exactly the calls of its plan and is complete exactly when all its checks pass, and a complete run made them all but for a release cut short by its budget; whatever came before, the cleanup is made in full and recorded as answered unless its own budget is used up, one of its calls raises or a reconciliation breaks; diagnostics are taken of every confirmed container |
| SimplexDisk.PartwayTarget | finite-agentd/simplex_runtime.py:426-495 | wherever the deletion stops after the journal, the reset still deals with the same session ids and still ends in the same state |
| SimplexDisk.TargetClears | finite-agentd/simplex_runtime.py:386-423 | the state a reset ends in has no SimpleX row, route, mirror entry, transcript of a gathered session, state directory or marker |
| SimplexDisk.OthersKeptIff | finite-agentd/simplex_runtime.py:426-495 | other platforms keep every row, route, mirror entry and limit if and only if no SimpleX family holds one of their rows and no gathered id names the mirror file |
| SimplexDisk.OthersKeptPartway | finite-agentd/simplex_runtime.py:426-495 | what other platforms keep in the end state, files included, they keep wherever an attempt is cut off |
| SimplexDisk.TranscriptsKept | finite-agentd/simplex_runtime.py:488-490 | a .json transcript is removed if and only if its session was gathered or the session's id starts with the request-dump prefix of a gathered one, a .jsonl transcript if and only if its session was gathered |
| SimplexDisk.DumpsKept | finite-agentd/simplex_runtime.py:491-492 | a request dump is removed if and only if some gathered id and an underscore start its session id and suffix, or its name is the transcript of a gathered session |
| SimplexDisk.ValidIdExactly | finite-agentd/simplex_runtime.py:430-460 | an id is one or more characters, each accepted by itself, so no slash, dot or zero byte |
| SimplexDisk.SelectedExactly | finite-agentd/simplex_runtime.py:446-446 | a mirror entry is SimpleX's exactly when it is a SimpleX record whose key does not begin with an underscore |
| SimplexDisk.IdCharacters | finite-agentd/simplex_runtime.py:430-460 | the accepted characters are exactly the 64 letters, digits, underscore and hyphen |
| SimplexDisk.SimplexLimitExactly | finite-agentd/simplex_runtime.py:386-423 | a rate limit is SimpleX's exactly when it counts one of its users, or is its lockout or its failures |
| SimplexDisk.SharedPrefix | finite-agentd/simplex_runtime.py:491-492 | clearing s1 removes a request dump of s1_2 |
| SimplexDisk.MirrorLost | finite-agentd/simplex_runtime.py:486-490 | a reset of a well-formed session called sessions loses another platform's mirror entry |
| SimplexReset.ReadPages | finite-agentd/simplex_runtime.py:461-476 | the pages of at most a hundred rows add up to the whole listing |
| SimplexReset.Manager.PrepareReset | finite-agentd/simplex_runtime.py:377-383 | refuses while the channel is enabled or unmanaged, otherwise records the intent once and never overwrites a journal |
| SimplexReset.Manager.RemoveTranscripts | finite-agentd/simplex_runtime.py:488-492 | removes exactly the files of gathered sessions, and a session named like the mirror takes the mirror |
| SimplexReset.Manager.ClearSessions | finite-agentd/simplex_runtime.py:426-495 | a malformed id stops it before anything changes; the whole journal is written before the first deletion; on success everything gathered is deleted and nothing else |
| SimplexReset.Manager.FinishReset | finite-agentd/simplex_runtime.py:386-423 | wherever an attempt stops the marker stays, holding every gathered id if anything beyond pairing data was touched, and the end state is unchanged; the marker goes only in that end state; an enabled channel or a running daemon stops it without effect |
| SimplexReset.Retry | finite-agentd/simplex_runtime.py:386-495 | over any number of cut-off attempts with other platforms at work in between, creating or removing the database and the mirror file included, the barrier stays up and the reset keeps the sessions it began with until nothing of them is left; one uncut, admitted attempt suffices when the ids are well formed |
| SimplexRelays.Build | finite-agentd/simplex_runtime.py:152-181 | the appending loop computes the settings function the lemmas are about |
| SimplexRelays.OwnerPolicyKept | finite-agentd/simplex_runtime.py:152-181 | every group keeps its entries in order in front of what is appended, and appended entries are unknown relays without an id, neither preset nor deleted, and switched off |
| SimplexRelays.AllRelaysKnown | finite-agentd/simplex_runtime.py:152-181 | the managed default layout ends up knowing every relay |
| SimplexRelays.Idempotent | finite-agentd/simplex_runtime.py:152-181 | applying the change twice is applying it once |
| SimplexRelays.ChangesIff | finite-agentd/simplex_runtime.py:152-181 | the settings change exactly when they are the managed default layout, an enabled SimpleX operator beside an empty custom group in either order, and some wanted relay is unknown to them |
| SimplexConfigure.StoresNormalizes | finite-agentd/simplex_runtime.py:224-229 | a daemon that stores what it is told reads back, ids normalized, as the extended backup |
| SimplexConfigure.RollbackLists | finite-agentd/simplex_runtime.py:213-237 | an undoing leaves every group as backed up and appends, marked as deleted, exactly the applied relays that the change had asked for and the backup does not know by id |
| SimplexConfigure.RollbackRestores | finite-agentd/simplex_runtime.py:213-237 | a daemon that stores the rollback is back at the backup exactly, whatever it had made of the change |
| SimplexConfigure.Setup.Configure | finite-agentd/simplex_runtime.py:184-238 | settings are written only when the daemon holds the backed-up ones, and a rollback only over the change just made; ready with a change means that the settings, ids normalized, are the extended backup and the rollback is filed; an invalid change is never written; with the change valid and every command answered it gives up only on an unfaithful daemon or an edit, after writing the rollback; with no effect left it does nothing |
| SimplexConfigure.Attempts | finite-agentd/simplex_runtime.py:184-248 | over any number of cut-off attempts, with owner edits in between, every write is lawful; without edits and with an obedient daemon one attempt that is not cut off, whose change is valid and whose commands are answered completes the change to the settings it began with, whatever became of the other attempts; ready always means that the daemon holds the extended backup, or that there is nothing to change |
| Bech32.ComputePolymod | scripts/finite_status_brain_roster.py:268-276 | the two loops compute the remainder function |
| Bech32.StepLinear | scripts/finite_status_brain_roster.py:268-276 | a step is linear over exclusive-or in state and symbol |
| Bech32.StepInjective | scripts/finite_status_brain_roster.py:268-276 | the state map of a step is injective on thirty-bit states |
| Bech32.BurstDetected | scripts/finite_status_brain_roster.py:253-276 | a change confined to any six neighbouring symbols changes the checksum, for symbol sequences of any length |
| Bech32.ChecksumUnique | scripts/finite_status_brain_roster.py:253-276 | for any data exactly one sequence of six symbols brings the remainder to one |
| Npub.Regroup | scripts/finite_status_brain_roster.py:256-265 | the accumulator loop yields the payload exactly when the four padding bits are zero |
| Npub.NpubToHex | scripts/finite_status_brain_roster.py:243-265 | the hexadecimal payload for canonical strings, nothing for any other string |
| Npub.DecodeEncode | scripts/finite_status_brain_roster.py:243-265 | the encoding of every 32-byte payload is accepted and decodes to it |
| Npub.EncodeDecode | scripts/finite_status_brain_roster.py:243-265 | every accepted string is the encoding of the payload it decodes to |
| Npub.HexInjective | scripts/finite_status_brain_roster.py:265-265 | different payloads have different hexadecimal forms |
| Npub.HexSpells | scripts/finite_status_brain_roster.py:265-265 | the hexadecimal form spells each byte by the digits of its upper and its lower half |
| Npub.AlphabetSpelled | scripts/finite_status_brain_roster.py:250-252 | the symbols are the letters of the bech32 alphabet in its order |
| NpubExample.ExampleDecodes | scripts/finite_status_brain_roster.py:243-276 | the example key of NIP-19 is accepted and decodes to its 32 bytes |
| Npub.BurstRejected | scripts/finite_status_brain_roster.py:243-265 | changing up to six neighbouring characters after the prefix of an accepted string makes it rejected |
| Npub.ChangeRejected | scripts/finite_status_brain_roster.py:243-265 | so does changing any single character, to any other character |
| Wire.Varint | scripts/kata_guest_probe.py:252-259 | the loop yields the seven-bit groups, least significant first, and refuses values of 2^64 and above |
| Wire.Take | scripts/kata_guest_probe.py:274-285 | the shifting loop reads what the grouping function reads, with the same errors |
| Wire.ReadBounded | scripts/kata_guest_probe.py:274-285 | every integer read is below 2^64 and reading never passes the end, on any input |
| Wire.VarintRoundTrip | scripts/kata_guest_probe.py:252-285 | reading gives back every encoded integer below 2^64, wherever it stands |
| Wire.EncodeField | scripts/kata_guest_probe.py:262-267 | a field is its tag and its value, refused when either integer does not fit |
| Wire.FieldRoundTrip | scripts/kata_guest_probe.py:262-300 | decoding one encoded field gives it back, or refuses its number exactly when that may not come |
| Wire.FieldExamples | scripts/kata_guest_probe.py:262-267 | the two examples of the encoding guide, byte for byte |
| Wire.Fields | scripts/kata_guest_probe.py:270-300 | the decoding loop computes the field-by-field function, errors included |
| Wire.MessageRoundTrip | scripts/kata_guest_probe.py:262-300 | any list of well-formed fields decodes to its map, later entries replacing earlier ones, or is refused exactly when a number comes again that may not |
| Wire.RoundTrip | scripts/kata_guest_probe.py:262-300 | distinct well-formed fields come back as exactly the map they make |
| Wire.DecodedWellFormed | scripts/kata_guest_probe.py:270-300 | on any input the decoded numbers are in range, integers are below 2^64 and byte values are pieces of the input |
| ToolCalls.Accumulate | scripts/check_finite_private_glm53_protocol.py:75-106 | the nested loops return the accumulated calls in ascending index order; for calls numbered from zero, cut into any pieces and interleaved in any order that keeps each call's own, they return the calls themselves |
| ToolCalls.AbsorbedGlued | scripts/check_finite_private_glm53_protocol.py:75-106 | each index gets exactly the concatenation of the pieces that name it, in their order |
| ToolCalls.MissingIndexIsZero | scripts/check_finite_private_glm53_protocol.py:75-106 | a fragment without an index belongs to the first call |
| ToolCalls.StreamUndone | scripts/check_finite_private_glm53_protocol.py:75-106 | for any pieces of any calls and any stream whose subsequence for each index is that call's pieces, the concatenated calls come back |
| ToolCalls.CutGlued | scripts/check_finite_private_glm53_protocol.py:75-106 | a call streamed as its id and name followed by its arguments in pieces is put together to exactly that call |
| ToolCalls.OriginalsInOrder | scripts/check_finite_private_glm53_protocol.py:106-106 | calls numbered from zero come back as the original list |
| ToolCalls.Exchange | scripts/check_finite_private_glm53_protocol.py:75-106 | neighbouring fragments of different calls may change places anywhere in the stream |
| Dashboard.OverlapsIffShared | scripts/check_monitoring_nixos_contract.py:386-399 | panels that are not empty overlap if and only if they share a grid cell |
| Dashboard.AcceptedIff | scripts/check_monitoring_nixos_contract.py:402-435 | a dashboard is accepted if and only if its ids are distinct, every panel at any depth is not empty and lies within 24 columns at no negative place, and no cell lies in two siblings at any depth |
| Dashboard.RejectedIff | scripts/check_monitoring_nixos_contract.py:402-435 | repeated ids are reported first, then the first panel off the grid with what is wrong with it, and overlapping siblings only when neither is |
| Dashboard.CoveredSize | scripts/check_monitoring_nixos_contract.py:386-435 | siblings that do not overlap cover as many cells as their areas add up to |
| Dashboard.AcceptedPacks | scripts/check_monitoring_nixos_contract.py:402-435 | in an accepted dashboard every list of siblings, at any depth, has a total area of at most 24 times its greatest bottom edge |

## Left out

- Lost or delayed replies, partial kills and crash recovery of the freeze owner: the source leaves them out of its own model.
- The notes text of releases, and the text of JSON documents and checksum files: contents are values, and a size is some
  number that the content decides.
- Real hashing: equal digests stand for equal contents.
- The mechanics of `gh`, `git`, `docker`, the WebSocket, SQLite and the file system; each is one atomic effect, and a
  multi-file upload or directory removal is a sequence of them.
- Deadlines and budgets in seconds: any phase's budget may be used up at any time, and then stays so.
- The lab runner's own files (`run.json`, `verdict.json`) and the classification of its records: a verdict is an input
  to the exit code.
- The timer thread that releases readers early, and the reaping of local processes and their pipes.
- DeliveryPublish.PublishRelease: does not model transient refusals by the remote other than a cut-off, because each leaves the state of some cut-off.
- Downloading, digest comparison and tag filtering of the backfill, and the order in which it publishes: candidates come in any order.
- Versions.ReadVersion: does not read numbers in the digits of other scripts, which `\d` and `int` accept in a source tag.
- SimplexReset.Manager.FinishReset: does not model transcripts that the session database removes by itself while deleting rows, because the reset removes the same files afterwards.
- The address and status calls that refuse while the reset marker exists: they only look whether it is there, which `SimplexReset.Retry` says lasts until nothing is left.
- Session ids in the SimpleX metadata that are not strings; a malformed id of any kind stops the reset in the same way.
- Pairing files outside the two known layouts, and routes of other scopes.
- Npub.NpubToHex: does not model values that are not strings, because the source answers those with nothing before looking at them.
- The guest probe's process selection and socket reads, and the other contract checkers of the repository.
