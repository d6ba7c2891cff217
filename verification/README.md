# Verified models of the Foretoken CLI's stateful cores

This project models, in Dafny, the parts of the Foretoken command line whose purpose is an invariant:
who may change a deployment instance, what a published application version holds, which cleanup must not
be lost, and who may collect files. Each part is a model of the code's own steps, and its properties are
proved for every input, every interleaving and every crash point the model admits.

`dafny verify dfyconfig.toml` checks the whole project.

## The parts

**The mutation lock** (`MutationLock`, `LockProofs`, `LockTheorems`, `LockEffects`). An operation owns an
InferenceDeployment record through an annotation set by compare-and-swap on UID and resourceVersion, paired
with a lock file whose `flock` its subprocesses inherit. The state machine has one event per step of `hold`,
`_release` and `_recover_local`. Processes crash between any two steps; a holder patch may reach the server
after its sender stopped waiting, or never; several recoverers may race on one stale file. Operation ids are
fresh, UIDs are not reused and only this protocol writes the annotation.

**Submission** (`Submission`, `SubmissionInv`, `SubmissionFrames`, `SubmissionProofs`, `SubmissionSteps`,
`SubmissionTheorems`, `SubmissionStaleness`, `SubmissionEffects`, `SubmissionRuns`, `SubmissionClaims`,
`SubmissionClient`). Any number of deploys, temporary deploys and deletes work on one
instance name. The API server stores objects with UID, resourceVersion, generation, deletion mark, operation
tag and spec: a versioned write lands only on a match, a status update moves only the version, a spec change
moves the generation. Every accepted write is logged with what it replaced. A client may crash anywhere; its
request in flight may still land, and its lock stays held until it has. The log holds the object the server
stored before each write and the one it stores after it (`LogIsHonest`). The lock appears here as the record's
holder.

**What joins the two** (`LockSpec`, `LockRefinement`, `SubmissionLock`). One specification of an exclusive lock per
instance: whoever may write owns it, and no owner is replaced before it was freed. Every step of the annotation
and lock-file protocol is a step of it, and so is every step of the submission model, which grants every free
record and frees every owner the specification lets it. A client takes a fresh operation id for each `hold`.

**Publication** (`Publication`, `PublicationTheorems`, `PublicationEffects`, `PublicationProvenance`,
`PublicationBatch`, `BatchEffects`, `FileSystem`, `Publisher`, `PublisherBatch`, `ImportEffects`). `Publication` says what readers see: a map from paths to bytes and
modes, without links or staging. `FileSystem.Volume` is the volume with directory entries that share inodes, and
`Publisher` and `PublisherBatch` carry out publication, retirement, build records, batches and release imports on
it, loop by loop. Each of those methods is proved to have exactly the effect that `Publication` states, and
`trace` records every view readers met on the way, so a crash at any point leaves one of the views the theorems
speak about. Exports are assumed to leave the names `manifest.json` and `application.tar.gz` at their root free:
the code would link or copy such a file into staging and then truncate that inode (`Volume.Write` states exactly
when readers of another version notice).

**Command cancellation** (`Execution`). The locked sections of `CommandExecution` are methods of a class; threads
that register, unregister, cancel and clean up interleave around them, and a process's stop function runs under
that process's own lock.

**The release lease** (`Lease`, `LeaseRuns`). Installers serialize import, collection and Helm selection through one Job name
that its TTL controller frees.

**Retained references** (`References`, `ReferenceForms`). The text of a retained URL or revision, split, decoded and cut as
`urlsplit` and `unquote` do, and the directory name it stands for.

**Download sources** (`Sources`) and **plain scalars** (`Scalars`, `ScalarWords`, `ScalarFloats`) are the pure choice of a mirror over
repeated rounds, and the Go-compatible classification of plain YAML scalars.

The theorems are of two kinds. Some say what never happens, over every run. The modules named `Effects`, `Runs`,
`Claims` and `Client` say what each step achieves, in terms of the stored fields, paths, bytes and numbers: what a
landed write leaves on the server, what a batch removes and keeps, and how an undisturbed `hold`, claim, deployment,
cleanup or installation ends.

## What the code does not promise

Several properties one might expect hold only under a condition; the model keeps the code as it is, shows the
failure and proves the condition.

- A version with a manifest is complete, except where a retirement died inside `rmtree`. `DyingRetirement`: an
  interrupted retirement leaves a complete version with a manifest complete, wherever it stops, exactly when it
  does not select that version. If the manifest went first, the remaining files are never removed and the
  revision can never be published again (`LeftoversAreForever`).
- A part is recorded on its last supplier's account exactly when that publication built its version with sources
  and every later build carried sources and archive (`ProvenanceOfLastSupplier`). A later build without sources
  erases the record. An export submitted again unchanged is reused with its old sources
  (`IdenticalExportKeepsOldSources`).
- Two installers' windows never overlap, and every collection knows the selections before it, exactly when no
  release Job finishes within the grace a stopped command is given, and no Job is released before its stopped
  selection has ended (`DisjointExactlyWhenSafe`, `FreshExactlyWhenSafe`). The cancellation callbacks of the code
  run concurrently and do not wait for each other, so the second half is not met when a running selection is
  cancelled; `UnsafeOverlaps` gives the runs.
- The URL built for a revision maps back to that directory name exactly for plain names (`ReferenceRoundTrip`), and
  a bare revision exactly for plain names that do not start like a URL (`BareNameRoundTrip`).

## Model

| member | source | states |
|---|---|---|
| LockProofs.NextKeeps | cli/foretoken/kubernetes/mutation.py:49-183 | every step of every operation, recoverer, crash and late patch keeps the lock invariant |
| LockTheorems.MutualExclusion | cli/foretoken/kubernetes/mutation.py:49-101 | in every reachable state at most one operation per instance UID is in its body, releasing, or outlived by a body subprocess |
| LockTheorems.EntryExcludesOthers | cli/foretoken/kubernetes/mutation.py:83-96 | an operation enters only on hearing its own accepted patch, and then no other operation's process or inheriting subprocess is at work on that UID |
| LockEffects.AcquireEnters | cli/foretoken/kubernetes/mutation.py:73-86 | polling a free instance undisturbed ends in the body with the record naming the operation and nothing else changed |
| LockEffects.AcquireRetries | cli/foretoken/kubernetes/mutation.py:87-88 | an acquire patch that lost a race polls again and enters if the instance is free then |
| LockEffects.GrantsOnlyFree | cli/foretoken/kubernetes/mutation.py:126-147 | whenever a granting patch is accepted, nobody holds the record, nobody is deleting it, and it is the one its sender pinned |
| LockEffects.RefusesReplaced | cli/foretoken/kubernetes/mutation.py:126-133 | an absent, terminating or replaced instance ends the operation with no patch and no lock file left |
| LockEffects.RemoteHolderIsAwaited | cli/foretoken/kubernetes/mutation.py:153-158 | a holder without a lock file here is waited for and nothing changes |
| LockEffects.LiveHolderIsAwaited | cli/foretoken/kubernetes/mutation.py:160-163 | a holder whose lock file is locked is waited for and nothing changes |
| LockEffects.HoldIsClean | cli/foretoken/kubernetes/mutation.py:50-101 | a whole undisturbed hold owns the record in its body and leaves nothing behind but two versions |
| LockEffects.CrashedBodyStaysInside | cli/foretoken/kubernetes/mutation.py:66-68 | a process that dies in its body stays inside, with its flock, until its subprocess ends |
| LockTheorems.OwnershipNeverChanges | cli/foretoken/kubernetes/mutation.py:176-177 | the release never finds another holder, so its ownership error cannot occur |
| LockEffects.ReleaseFrees | cli/foretoken/kubernetes/mutation.py:167-183 | in every reachable state a releasing operation's steps clear its holder, change nothing else of any record, and remove its lock file |
| LockEffects.ReleaseRetries | cli/foretoken/kubernetes/mutation.py:178-182 | a release that lost a version race reads again and frees the record then |
| LockEffects.ReleaseOfReplaced | cli/foretoken/kubernetes/mutation.py:173-175 | the record of a deleted or replaced instance is left alone and only the lock file goes |
| LockEffects.AbandonedReleaseIsRecoverable | cli/foretoken/kubernetes/mutation.py:94-101 | a release that gives up leaves record and lock file for recovery |
| LockTheorems.LockFileKept | cli/foretoken/kubernetes/mutation.py:97-101 | whenever a live record names an operation, or an undecided patch could make it so, that operation's lock file exists |
| LockTheorems.StaleHolderCleared | cli/foretoken/kubernetes/mutation.py:149-165 | a dead local holder can always be cleared: unless a recoverer has the file locked, the recovery steps free the record and remove the file |
| SubmissionSteps.NextKeeps | cli/foretoken/deployment/submission.py:74-480 | every step of every client, server and outside writer keeps the submission invariant |
| SubmissionTheorems.Supersession | cli/foretoken/deployment/submission.py:114-165 | once another operation claimed the instance, an earlier claimant never again writes or deletes its record, services or dependencies |
| SubmissionTheorems.WritesAreClaimed | cli/foretoken/deployment/submission.py:91-103 | every accepted write stands under its author's own claim, with no later claim in between |
| SubmissionClaims.ClaimSucceeds | cli/foretoken/deployment/submission.py:114-147 | an instance open to the client, with every service as expected, is claimed: the record carries its operation and its requests may go out |
| SubmissionClaims.UnexpectedServiceRefused | cli/foretoken/deployment/submission.py:239-247 | a service that is not as expected ends the claim before anything is written |
| SubmissionClaims.UnclaimableRefused | cli/foretoken/deployment/submission.py:120-138 | so does an instance gone, replaced, being deleted, or with services a temporary submission did not make |
| SubmissionClaims.ClaimReplacesWhatItRead | cli/foretoken/deployment/submission.py:126-147 | over every run an accepted claim replaces exactly the operation its sender had read |
| SubmissionClient.ClaimRetriesExactly | cli/foretoken/deployment/submission.py:132-146 | a claim that lost a version race is tried again exactly if the record is kept and its operation the same |
| SubmissionClient.LostClaimIsFinal | cli/foretoken/deployment/submission.py:139-146 | a claim whose reply was lost is never repeated |
| SubmissionClient.CheckExactly | cli/foretoken/deployment/submission.py:157-165 | a claimed client goes on exactly while the kept record of its UID carries its operation |
| SubmissionClient.LostRaces | cli/foretoken/deployment/submission.py:469-480 | a write that lost its race makes the client confirm its claim again, and a lost reply ends its turn |
| SubmissionClient.SnapshotExactly | cli/foretoken/deployment/submission.py:58-69 | the snapshot keeps each service's intent or absence; one being deleted, or any for a temporary submission, is refused |
| SubmissionClient.BindsExisting | cli/foretoken/deployment/instances.py:92-100 | an existing record is bound to unless it is being deleted or is not the one already known |
| SubmissionClient.BindCreates | cli/foretoken/deployment/instances.py:99-117 | a missing record is created unclaimed, with its services declared, as the submission's own creation |
| LockRefinement.LockImplementsSpec | cli/foretoken/kubernetes/mutation.py:49-183 | every step of every reachable state is a step of the exclusive lock specification: no direct change of owner, none while busy |
| SubmissionLock.SubmissionUsesSpec | cli/foretoken/deployment/submission.py:74-85 | every step of the submission model is a step of the same specification |
| SubmissionLock.GrantIsAdmitted | cli/foretoken/kubernetes/mutation.py:83-86 | a free, current record is granted to any bound client outside the lock, and nothing else changes hands |
| SubmissionLock.FreeIsAdmitted | cli/foretoken/kubernetes/mutation.py:149-183 | every owner without a request in flight can free the record, alive by leaving and dead by recovery |
| SubmissionClient.AcquireExactly | cli/foretoken/kubernetes/mutation.py:73-86 | the holder is granted exactly on an existing, kept and free record, and nothing else changes |
| SubmissionClient.ReleaseFreesRecord | cli/foretoken/kubernetes/mutation.py:167-183 | a client with no request in flight leaves the lock and frees the record |
| SubmissionClient.RecoverExactly | cli/foretoken/kubernetes/mutation.py:149-165 | a record is freed on a client's behalf exactly when that client is dead with no request left |
| SubmissionClient.CrashExactly | cli/foretoken/kubernetes/mutation.py:99-101 | a process that dies with a request under way leaves the request behind, else it is gone |
| LockSpec.Handover | cli/foretoken/kubernetes/mutation.py:73-96 | two operations busy on one instance are separated by a moment at which it is free |
| SubmissionTheorems.LogIsHonest | cli/foretoken/deployment/submission.py:430-463 | each accepted write logs the object the server stored before and after it, and members change only by logged writes or outside the protocol |
| SubmissionTheorems.NoIntentOverwrittenUnseen | cli/foretoken/deployment/submission.py:239-247 | every accepted service write replaces a stored object whose intent is exactly its author's snapshot or last commit |
| SubmissionTheorems.StagedResume | cli/foretoken/deployment/submission.py:228-233 | a stored suspended service is set running only if its stored configuration is the one its author applied |
| SubmissionEffects.ToggleWrites | cli/foretoken/deployment/submission.py:409-419 | a landed stop or resume sets the suspension as requested, keeps the configuration and tags the operation; nothing else of the server changes |
| SubmissionEffects.ConfigureWrites | cli/foretoken/deployment/submission.py:420-434 | a landed configuration sets configuration and source of an existing service, may stop it and never resumes it |
| SubmissionEffects.ConfigureCreates | cli/foretoken/deployment/submission.py:426-428 | a landed creation stores the requested configuration, source and state under the sender's instance |
| SubmissionEffects.CreateWrites | cli/foretoken/deployment/submission.py:324-347 | a created dependency has the requested configuration and the sender's operation |
| SubmissionEffects.ClaimMemberWrites | cli/foretoken/deployment/submission.py:249-282 | claiming a dependency changes its operation and nothing it runs |
| SubmissionEffects.ApplyMemberWrites | cli/foretoken/deployment/submission.py:366-385 | applying a dependency sets its configuration and keeps its state |
| SubmissionEffects.DeleteMemberWrites | cli/foretoken/deployment/lifecycle.py:241-242 | a landed deletion marks the object and changes nothing else of it |
| SubmissionEffects.ClaimWrites | cli/foretoken/deployment/submission.py:249-267 | a landed claim tags the record with its sender, and a temporary one declares its services in the same write |
| SubmissionEffects.RequestWrites | cli/foretoken/deployment/lifecycle.py:206-219 | a landed request declares the members it was sent with |
| SubmissionEffects.DeleteRootWrites | cli/foretoken/deployment/lifecycle.py:265-271 | a landed deletion marks the record and changes nothing else of it |
| SubmissionEffects.StaleWriteIsRefused | cli/foretoken/deployment/submission.py:469-480 | a write that does not meet what it was computed from changes nothing and is a conflict to its sender |
| SubmissionClient.OldVersionsAreRefused | cli/foretoken/deployment/submission.py:430-434 | any other UID or version, or an object where none was expected, refuses the write |
| SubmissionRuns.DeployRuns | cli/foretoken/deployment/submission.py:225-233 | from every reachable state the two stages of an undisturbed deployment end with the service running the submitted configuration and source |
| SubmissionRuns.ConfigureRun | cli/foretoken/deployment/submission.py:400-466 | a service that is as the submission knows it can be configured, and the submission then knows it as stored |
| SubmissionRuns.ToggleRun | cli/foretoken/deployment/submission.py:400-466 | such a service can be stopped, and resumed once a configuration was applied |
| SubmissionRuns.ResumeNeedsConfiguration | cli/foretoken/deployment/submission.py:228-233 | without an applied configuration no resume is sent |
| SubmissionRuns.CreateRun | cli/foretoken/deployment/submission.py:426-466 | a missing service is created as submitted, with a creation receipt |
| SubmissionClient.CreateDependencyRun | cli/foretoken/deployment/submission.py:324-347 | a missing dependency is created under the submission's operation, with a creation receipt |
| SubmissionClient.AdoptDependencyRun | cli/foretoken/deployment/submission.py:348-354 | a dependency of the instance is adopted, except by a temporary submission that did not make it |
| SubmissionTheorems.CleanupDeletesOwnCreations | cli/foretoken/deployment/lifecycle.py:221-252 | the stored object a cleanup deletes was created by its author; a service is at its last committed intent, a dependency under its own tag |
| SubmissionRuns.CleanupRun | cli/foretoken/deployment/lifecycle.py:229-252 | what a client created and finds as it left it, it can delete |
| SubmissionRuns.DeletionRun | cli/foretoken/deployment/lifecycle.py:254-272 | a deletion, or the submission that made the record, marks it deleted |
| SubmissionRuns.RequestRun | cli/foretoken/deployment/lifecycle.py:206-219 | a submission declares its members, and a temporary one may declare no service |
| SubmissionClaims.TemporaryLeavesStorage | cli/foretoken/deployment/submission.py:305-314 | over every run a temporary submission changes a dependency only if it made it |
| SubmissionClient.TemporaryWritesOwnServices | cli/foretoken/deployment/submission.py:58-69 | over every run a temporary submission writes an existing service only as its own last commit left it |
| SubmissionClaims.RecordChangedByRight | cli/foretoken/deployment/lifecycle.py:195-219 | over every run the record is deleted only by a deletion or its maker, loses its services only to a temporary submission, and always under the author's claim |
| SubmissionTheorems.TemporaryClaimsAreExclusive | cli/foretoken/deployment/submission.py:249-267 | between two temporary claims of one instance a request has stripped its service references |
| SubmissionTheorems.TemporaryClaimGuard | cli/foretoken/deployment/submission.py:121-124 | a pending temporary claim is the creator's or finds the instance storage-only |
| SubmissionStaleness.BlockedForever | cli/foretoken/deployment/submission.py:400-480 | a client whose precondition was overtaken stays so over every step and writes the service in none |
| SubmissionStaleness.ChangedSpecIsFinal | cli/foretoken/deployment/submission.py:493-507 | a service removed, replaced or given another spec since a client's snapshot or commit is never written by it again |
| SubmissionStaleness.NewerToggleIsFinal | cli/foretoken/deployment/submission.py:416-419 | a stop or start that lands leaves the service so, and even a repeated one keeps every client that has not read it from writing that service in any later run |
| PublicationTheorems.PublishedIsFullCopy | cli/foretoken/applications/publish.py:58-135 | the version built or reused equals a full copy of its inputs: paths, bytes, published modes and listing |
| PublicationTheorems.IncrementalRefinesFullCopy | cli/foretoken/applications/publish.py:70-90 | every path of a selected part is the export's and nothing older survives, every other path is the previous version's |
| PublicationEffects.PartsAreIndependent | cli/foretoken/applications/publish.py:339-347 | outside the control plane each path goes with its own part: `python`, the two engine names, or the rest, whatever parts are updated together |
| PublicationEffects.PythonUpdate | cli/foretoken/applications/publish.py:343-344 | a Python update takes exactly the paths under `python` from the export and keeps every other path |
| PublicationEffects.EngineUpdate | cli/foretoken/applications/publish.py:345-346 | an engine update takes exactly `engine` and `engine-environment.json` and keeps every other path |
| PublicationEffects.ControlPlaneUpdate | cli/foretoken/applications/publish.py:341-342 | the control plane is replaced whole or kept whole |
| PublicationEffects.ReusesExactly | cli/foretoken/applications/publish.py:60-69 | the previous version is reused exactly if allowed, of the same binding and no release, on the same images, with the same files |
| PublicationEffects.ModeChangeRebuilds | cli/foretoken/applications/publish.py:112-119 | a change of executable bits alone is a change |
| PublicationEffects.PublishedModes | cli/foretoken/applications/publish.py:112 | every published file is readable by all, writable by none, and executable as in the export |
| PublicationEffects.ManifestStates | cli/foretoken/applications/publish.py:184-194 | the manifest of a built version states its binding, owner, images and, for every file, mode and size |
| PublicationEffects.RecordNamesSources | cli/foretoken/applications/publish.py:155-176 | a supplied part is recorded with the publication's own sources and archive, and engines for the engine part only |
| PublicationEffects.ArchiveIsStored | cli/foretoken/applications/publish.py:143-154 | an archive that appears at any moment is the publication's own, read-only, and no other archive changes |
| PublicationEffects.BuiltArchiveIsThere | cli/foretoken/applications/publish.py:139-154 | a build that supplies some path with evidence has its archive stored |
| PublicationEffects.AdoptionStoresNoArchive | cli/foretoken/applications/publish.py:142 | a build that supplies no path stores none |
| PublicationEffects.FailsExactly | cli/foretoken/applications/publish.py:51-78 | the exact conditions of a missing export, an unreadable or missing base and a wrong image |
| PublicationEffects.RefusesBadPaths | cli/foretoken/applications/publish.py:85-88 | a previous manifest is refused exactly for an empty, absolute or parent path |
| PublicationEffects.RefusesUnknownOrigin | cli/foretoken/applications/publish.py:158-163 | a build fails exactly if a part it takes over is missing from a part-wise record |
| PublicationEffects.RefusesIrregular | cli/foretoken/applications/publish.py:99-109 | a full publication is refused exactly for links and special files |
| PublicationEffects.FailureChangesNoVersion | cli/foretoken/applications/publish.py:92-204 | a publication that fails changes no version |
| PublicationTheorems.HistoryKept | cli/foretoken/applications/publish.py:92-227 | over any run, with crashes, a version no retirement selects keeps its bytes and modes |
| PublicationTheorems.ManifestMeansComplete | cli/foretoken/applications/publish.py:184-204 | over any run, a version with a manifest holds exactly its listed files and package unless its removal died |
| PublicationTheorems.DyingRetirement | cli/foretoken/applications/publish.py:222-226 | a dying retirement is harmless to a complete version exactly when it does not select it |
| PublicationTheorems.LeftoversAreForever | cli/foretoken/applications/publish.py:212-215 | files left without a manifest are never removed and block their revision in every later run |
| PublicationProvenance.ProvenanceOfLastSupplier | cli/foretoken/applications/publish.py:156-176 | along any chain of full, partial, reusing and repeated publications, from a release or from source, a part carries its author's account, and the author is the last supplier exactly if that one built with sources and all later builds carried sources and archive |
| PublicationProvenance.IdenticalExportKeepsOldSources | cli/foretoken/applications/publish.py:132-135 | an export submitted again unchanged is reused, whatever its new sources, with the record of the first publication |
| PublicationProvenance.BuildsUnlessUnchanged | cli/foretoken/applications/publish.py:58-135 | a publication of a new destination builds it exactly unless the previous version is unchanged and reusable |
| PublicationProvenance.NamedArchivesAreStored | cli/foretoken/applications/publish.py:136-155 | over any run, every archive a manifest or evidence names is stored, and part-wise manifests have equal evidence |
| PublicationProvenance.ArchivesAreForever | cli/foretoken/applications/publish.py:143-154 | a stored archive is never removed or rewritten |
| PublicationBatch.PublishAgain | cli/foretoken/applications/publish.py:51-57 | running a publication again from any view it can leave behind gives the same result and the same final view |
| PublicationBatch.RetireAgain | cli/foretoken/applications/publish.py:207-227 | finishing a retirement that died equals having done it, but for files without a manifest |
| PublicationBatch.RerunBatch | cli/foretoken/applications/publish.py:296-325 | running a batch again after it died anywhere gives the revisions and version contents of an uninterrupted run |
| PublicationBatch.RecordComesLast | cli/foretoken/applications/publish.py:276-293 | a build record becomes visible only when every application of the batch is published, and names exactly those revisions |
| BatchEffects.BatchKeepsRetained | cli/foretoken/applications/publish.py:304-315 | in every view a batch can leave, finished or not, a version that is to be kept, is another publisher's, or falls under no retention is unchanged |
| BatchEffects.BatchLeavesExactly | cli/foretoken/applications/publish.py:304-325 | a finished batch has published every revision it returns and removed exactly the other versions of its binding and components that are not kept |
| BatchEffects.BatchLeavesRecord | cli/foretoken/applications/publish.py:316-325 | a batch that succeeds has its build record, of exactly the revisions it returns |
| PublicationEffects.RetainedSurvive | cli/foretoken/applications/publish.py:211-227 | the names a retirement returns are exactly the publisher's versions it spares |
| PublicationEffects.RecordStates | cli/foretoken/applications/publish.py:284-293 | a new build record holds the build's own applications, details, address and input archive, read-only |
| PublicationEffects.RecordIsIdempotent | cli/foretoken/applications/publish.py:278-279 | committing a build record again finds it and changes nothing |
| FileSystem.Volume.Write | cli/foretoken/applications/publish.py:180-194 | opening for writing rewrites the inode behind an entry; readers notice exactly when a visible entry shares it with other content |
| FileSystem.Volume.CopyFile | cli/foretoken/applications/publish.py:123-124 | a copy to a new staging name is a new inode and unseen by readers |
| FileSystem.Volume.MoveStaging | cli/foretoken/applications/publish.py:203 | one rename makes exactly the staged files visible, or fails if the version directory holds files |
| FileSystem.Volume.MoveBuild | cli/foretoken/applications/publish.py:293 | one rename makes both files of a build record visible, or fails if its directory holds files |
| FileSystem.Volume.ClearTemporary | cli/foretoken/applications/publish.py:350-353 | removes every staging entry of the prefix, nothing else, unseen by readers |
| Publisher.GatherInputs | cli/foretoken/applications/publish.py:70-90 | the loop yields the specified inputs, or the first applicable error |
| Publisher.StageFile | cli/foretoken/applications/publish.py:110-124 | links exactly when the previous file can stand for the input; staged content and mode are those of a copy either way |
| Publisher.CopyInputs | cli/foretoken/applications/publish.py:95-131 | the loop stages and lists a full copy of the inputs and tells whether all were linked, unseen by readers |
| Publisher.AdoptSources | cli/foretoken/applications/publish.py:156-176 | the provenance loop computes the specified part-wise record, or fails when the base lacks an adopted part |
| Publisher.KeepArchive | cli/foretoken/applications/publish.py:142-154 | the archive becomes visible once and complete, if some published part is supplied here |
| Publisher.WriteDocuments | cli/foretoken/applications/publish.py:177-194 | package and manifest join the staged files without touching a shared inode |
| Publisher.KeepEvidence | cli/foretoken/applications/publish.py:195-202 | the manifest's inode is kept as evidence in one visible step |
| Publisher.BuildVersion | cli/foretoken/applications/publish.py:136-204 | result, final view and every view met equal those specified for building a version |
| Publisher.Publish | cli/foretoken/applications/publish.py:34-204 | result and view are those of the specification, every view met is one of its stages; staging of its own binding is gone, and no other publisher's |
| PublisherBatch.Retire | cli/foretoken/applications/publish.py:207-227 | removes exactly the owned versions that are not kept, returns the kept ones, and meets only partial removals of those |
| PublisherBatch.RecordBuild | cli/foretoken/applications/publish.py:276-293 | commits the record once, only if every application has a manifest, and leaves no staging of its own |
| PublisherBatch.PublishBatch | cli/foretoken/applications/publish.py:296-325 | revisions and view are those of the specification and every view met is one a crash theorem covers |
| PublisherBatch.CrashViewsAreUsable | cli/foretoken/applications/publish.py:302-325 | whatever view a batch leaves behind when it dies is one it can be run on again |
| PublisherBatch.ImportRelease | cli/foretoken/applications/publish.py:230-273 | acts as a run of publications and retirements and meets only their views; on success all three components have the revision, and exactly the release staging is cleared |
| ImportEffects.ImportLeavesExactly | cli/foretoken/applications/publish.py:240-273 | after an import each of the three components has its own payload's full copy, owned by the release, or what was there; of the other versions exactly the unkept release-owned ones are gone |
| PublisherBatch.ImportViewsAreUsable | cli/foretoken/applications/publish.py:239-273 | whatever view an import leaves behind when it dies is one it can be run on again |
| Execution.CommandExecution.Check | cli/foretoken/processes/execution.py:88-93 | nothing proceeds in a cancelled scope and its first error is what is raised |
| Execution.CommandExecution.Add | cli/foretoken/processes/execution.py:97-100 | an open scope takes the callback, a closed one does not |
| Execution.CommandExecution.Remove | cli/foretoken/processes/execution.py:104-107 | the callback is no longer registered |
| Execution.CommandExecution.Cancel | cli/foretoken/processes/execution.py:116-121 | the first caller closes the scope with its own error and gets the live callbacks, later ones change nothing |
| Execution.FirstErrorStays | cli/foretoken/processes/execution.py:97-121 | once the scope is closed no run changes its error, reopens it or registers a callback |
| Execution.FirstErrorIsKept | cli/foretoken/processes/execution.py:114-121 | over any run the scope is closed exactly from the first `cancel` on and its error is that caller's |
| Execution.CancelInvokesRegistered | cli/foretoken/processes/execution.py:97-130 | the first `cancel` invokes and awaits exactly the callbacks whose last word was a registration |
| Execution.RegisterThenCancel | cli/foretoken/processes/execution.py:95-130 | a registration in an open scope is kept, and a cancellation then invokes it with its own error recorded |
| Execution.WaitersCanReturn | cli/foretoken/processes/execution.py:122-130 | in every reachable state every thread that waits for stop functions can still return, with its processes stopped |
| Execution.NoLostCleanup | cli/foretoken/processes/execution.py:95-130 | a callback registered and not unregistered before cancellation has stopped its process when the canceller returns |
| Execution.NoRegistrationIsLost | cli/foretoken/processes/execution.py:95-130 | whichever side of a cancellation a registration falls on, once `cancel` and `register` have returned its process is stopped, by exactly one run of the stop body |
| Execution.LateRegistrationStops | cli/foretoken/processes/execution.py:101-102 | a registration that fails has stopped its process first |
| Execution.StopRunsAtMostOnce | cli/foretoken/processes/execution.py:181-203 | a process's stop body runs at most once over any run |
| Execution.ReturnedMeansStopped | cli/foretoken/processes/execution.py:183-203 | a stop call returns only when the process has been stopped |
| Lease.HeldUntilDeadline | cli/foretoken/applications/files.py:426-536 | a confirmed owner's Job holds the name at least until its deadline |
| LeaseRuns.InstallationSucceeds | cli/foretoken/applications/files.py:212-273 | an installation that keeps its time reads, collects and selects in this order on one Job of its own and leaves the name free |
| LeaseRuns.SelectsExactly | cli/foretoken/applications/files.py:246-273 | a selection starts exactly on the installer's own finished Job before its deadline |
| LeaseRuns.ExpiresExactly | cli/foretoken/applications/files.py:426-536 | an unreleased name is free exactly the lease's seconds after its Job finished |
| LeaseRuns.LostCreateIsFreed | cli/foretoken/applications/files.py:500-536 | a Job whose creation was not confirmed is freed by its installer's own label |
| LeaseRuns.CancelledSelectionIsReleased | cli/foretoken/applications/files.py:524-536 | a cancelled selection that does not land leaves no trace and its Job is released |
| LeaseRuns.ReleaseWhileStopping | cli/foretoken/applications/files.py:524-536 | a Job is released under a selection still being stopped exactly if releases do not wait |
| LeaseRuns.OthersCannotRelease | cli/foretoken/applications/files.py:524-536 | no other installer's receipt or label frees the Job |
| LeaseRuns.StoppedSelectionsEnd | cli/foretoken/processes/execution.py:181-203 | over any run nothing is still being stopped longer than the grace after its cancellation |
| Lease.WindowsAreDisjoint | cli/foretoken/applications/files.py:212-273 | on safe terms no two installers are between reading references and the end of their selection, stopped or not, at once |
| Lease.DisjointExactlyWhenSafe | cli/foretoken/applications/files.py:524-536 | over all runs windows never overlap exactly when no Job finishes within a stopped command's grace and none is released before its selection ended |
| Lease.UnsafeOverlaps | cli/foretoken/processes/execution.py:114-130 | on any other terms a run overlaps, by early expiry or by releasing the Job of a selection still being stopped, and collects with stale references |
| Lease.CollectionIsConfirmed | cli/foretoken/applications/files.py:500-520 | on any terms only the Job of a confirmed owner that has read its references collects |
| Lease.FreshExactlyWhenSafe | cli/foretoken/applications/files.py:216-247 | over all runs no other selection lands between an installer's reading and its collection exactly on those terms |
| References.ReferenceRoundTrip | cli/foretoken/applications/files.py:411-424 | the URL of a revision maps back to it exactly for plain names |
| References.BareNameRoundTrip | cli/foretoken/applications/files.py:411-424 | a retained bare revision stands for its own directory exactly if it is a plain name that starts like no URL |
| ReferenceForms.EncodedNameIsFound | cli/foretoken/applications/files.py:411-424 | a percent-encoded name, in either case of its digits, stands for the directory of its decoded form |
| ReferenceForms.SuffixIsIgnored | cli/foretoken/applications/files.py:411-424 | a trailing slash, a query or a fragment does not change the directory |
| ReferenceForms.EmptyReferenceIsIgnored | cli/foretoken/applications/files.py:411-424 | an empty reference retains nothing |
| References.SafeCollection | cli/foretoken/applications/publish.py:207-227 | a retirement keeping the retained references, finished or not, touches no version they name, no other publisher's and no other component's |
| Sources.ReachableIsKept | cli/foretoken/downloads/sources.py:549-560 | the prior source is kept whenever it answers |
| Sources.MovesAreWorthwhile | cli/foretoken/downloads/sources.py:561-567 | a newly chosen mirror is the first of the fastest that answered, and takes at most 0.7 of a reachable official source's time and 0.25 s less |
| Sources.OfficialExactly | cli/foretoken/downloads/sources.py:540-567 | the official source is chosen exactly if it is kept, no mirror answered, or every mirror takes more than 0.7 of its time or gains less than 0.25 s |
| Sources.SelectSources | cli/foretoken/downloads/sources.py:304-329 | the loop decides every probe independently from its prior choice and writes nothing else |
| Sources.FirstRoundMoves | cli/foretoken/downloads/sources.py:540-567 | without a prior selection a mirror at 0.7 of a reachable official source's time and 0.25 s less is taken |
| Sources.StickyRounds | cli/foretoken/downloads/sources.py:304-329 | in each round of any sequence a probed source changes only when the one in use does not answer, and passes a reachable official source only for 0.7 of its time and 0.25 s |
| Sources.KeptThroughout | cli/foretoken/downloads/sources.py:540-567 | a source that answers in every round is kept throughout |
| Scalars.NumeralRoundTrip | cli/foretoken/kubernetes/documents.py:72-74 | every number has a digit string in every base, and it denotes that number |
| Scalars.SpellingsRoundTrip | cli/foretoken/kubernetes/documents.py:57-99 | every spelling of an integer is classified as that integer exactly when it fits, and otherwise as no integer |
| Scalars.IntegersAreSpellings | cli/foretoken/kubernetes/documents.py:57-99 | whatever is classified as an integer is an in-range spelling of it, or the signed-inside binary form |
| Scalars.SignedInsideRoundTrip | cli/foretoken/kubernetes/documents.py:87-99 | the signed-inside binary form is that integer exactly when it fits int64 |
| Scalars.BudgetIsEnough | cli/foretoken/kubernetes/documents.py:73-78 | a decimal too long for Python's conversion is beyond uint64 |
| ScalarWords.NumbersAreRead | cli/foretoken/kubernetes/documents.py:70-81 | hexadecimal, octal and binary spellings of every number are read in base 16, 8 and 2, exactly below the 64th power of two |
| ScalarWords.DecimalsAreRead | cli/foretoken/kubernetes/documents.py:70-81 | decimal spellings are read exactly below the 64th power of two unsigned, and within the 63rd with a sign |
| ScalarWords.TrueExactly | cli/foretoken/kubernetes/documents.py:28-35 | the true boolean is exactly y, yes, true and on in three casings |
| ScalarWords.FalseExactly | cli/foretoken/kubernetes/documents.py:28-35 | the false boolean is exactly n, no, false and off in three casings |
| ScalarWords.NullExactly | cli/foretoken/kubernetes/documents.py:36 | null is exactly the empty text, a tilde or the word in three casings |
| ScalarFloats.DecimalsAreFloats | cli/foretoken/kubernetes/documents.py:82-86 | digits with a point or an exponent, any sign and any underscores are a float exactly if finite, else a text, and never an integer |
| ScalarFloats.PointsAreFloats | cli/foretoken/kubernetes/documents.py:82-86 | so are a leading point and digits, with single underscores between digits |
| ScalarFloats.NonfiniteWords | cli/foretoken/kubernetes/documents.py:37-45 | the infinities and not-a-number are floats |

## Left out

- The retry loops of `hold`, `supersede`, `_begin`, `_apply_service` and `_apply_dependency` are the events of a state machine, not Dafny loops: other clients act between any two of their steps. Their timeouts appear as the choice to give up at any poll.
- Operation ids of the lock and client ids of the submission are not mapped to each other: the two models meet in `LockSpec`.
- A release of the lock that fails keeps the holder until recovery; in the submission model such a client stays in the lock until it is recovered or leaves.
- Server-side apply is assumed to keep a stored `suspend` that the applied configuration omits. A server that drops the field because the applier alone owned it is not modelled.
- Re-entrant `hold` calls of one operation only count depth and are not modelled.
- Rendering, decoding and comparing resource documents, including the storage comparison of temporary deployments: a configuration is an opaque number.
- Subdirectories of a version: a version directory is empty when it holds no file, so empty directories a removal left do not block a rename here.
- gzip and tar contents, JSON text and file sizes of the publisher's own documents: packages, manifests and records are values.
- Which of several errors of one copying loop is reported first: they are one error.
- Exports under construction: an export is read once and does not change during a publication.
- Downloading and unpacking a release archive: the payload is a parameter.
- Signals and process groups: stopping a process is one abstract action under its lock; an exception inside that action is not modelled.
- Cancellation contexts, observation deadlines and reporting of failures in `execution.py`.
- Clock skew between installers and the API server: the lease has one clock.
- Timestamp, base64 and mapping-key handling in `documents.py`; whether a literal is finite is a parameter of `Scalars.Classify`, and the number a float denotes is not modelled.
- UTF-8 decoding of percent-encoded bytes is a parameter that yields at most one character per byte.
- Probing of sources, image references and registries: measurements are inputs.
- Platform planning, compilers, profiling, dashboards and the Go entry points would add field lookups and wiring.
