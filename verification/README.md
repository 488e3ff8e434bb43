# A model of a file synchronization service

The service keeps a folder of each of a user's machines in step with a cluster of servers. One
server is primary and copies every change to its backups before it answers; a bully election
replaces it when it crashes; each client compares its folder with the server and with the state
it saved after the last sync. This project models that service in Dafny and proves what it keeps.
`dafny verify dfyconfig.toml` checks all of it.

## Parts

**The cluster.** `Members` holds one server's view and what each message does to it, `ClusterNode`
the same as an object with its member vector updated in place. `ClusterRuns` is the whole cluster as
a state machine: any number of servers with their files and accounts, election threads that probe one
member per step, take-overs whose announcements and links follow one by one, member lists that go down
one link at a time, candidates that a live primary takes back, crashes between any two steps, and client
changes that travel one link at a time. `ClusterSafety` and `ClusterFiles` give the invariants and what
each step does to them; `ClusterTheorems` draws the conclusions for whole runs; `ClusterChanges` says
when an acknowledged change is on every live server and when it can be lost, `ClusterLeaders` when there
can be two leaders; `ClusterSteps` says what announcements, attachments and the other steps of a primary
achieve, one by one and all together, `ClusterRecovery` that the servers left after any crashes can always get
back to one primary linked to all; `ClusterMishaps` has concrete runs that show where the conclusions stop.
`Sizes` and `Manifests` give the length of a manifest and when it can be sent. `Replication` is the primary's side
with the write lock held, as an object whose calls to backups may fail in any pattern; `Records` is the
text of an account.

**The client.** `Sync` has the three-way comparison as functions on listings, `SyncPass`,
`SyncTheorems` and `SyncSessions` what passes achieve, `SyncOutcomes` which side's version each name ends up
with, `SyncEvents` and `SyncRuns` runs of pushes, watcher events, rescans and edits. `SyncClient` is the object that does it in place and is tied to those functions.
`ConflictNames` finds the name of a conflicted copy, `StateFile` is the saved state.

**The store.** `Paths`, `Stores`, `StorageTree` and `Storage`: valid paths, the folders that files
need, and the server's store with its hash cache. `Fnv` is the content hash.

**The wire.** `Octets`, `Wire`, `Messages`, `Frames`, `Transfer`: integers, strings, lists and manifests
as bytes, frames over a stream delivered in any pieces, and file bodies. `Basics` has two facts about
sequences and sets.

## Assumptions

- A call between servers fails only if its peer has crashed (before or after handling the message), or if
  the message is longer than a frame may be, which only a manifest can be (`Manifests.ManifestLength`;
  `Manifests.MemberListFits` for host names of at most 253 bytes, the longest a domain name can be). The
  network does not partition (README.md:359 of the service). Suspicion is free: an election may start at
  any time.
- A call is one step. In particular a Coordinator or ReplicaAttach message whose sender has crashed is not
  handled later: a server with a lower id that has become primary in the meantime would obey it
  (server/cluster.cpp:503-517, 873-884), and `ClusterTheorems.PrimaryStays` would not hold.
- A join, with the broadcast that ends it, runs to completion as one step; every other member list is sent
  to one server in one step, as it is at that moment. What a crash in the middle of a join does is stated
  apart (`ClusterLeaders.CutJoinKeepsLeaderIff`). A server that crashed does not come back on its old
  address. A newcomer's files are such that it can be attached (no file where the primary has a folder, and
  a manifest that fits).
- A backup receives and applies one replicated message as one step. Changes are serialized by the
  write lock; listing a user's files is taken one at a time with the other store operations.
- Equal hash and size mean equal content. A file whose size and time match the saved state has its
  content (`Sync.Honest`), and the user's edits keep it so; a client's pass is not interleaved with edits by the user; the files of its folder
  can be read and the renames in it succeed; no name of a conflicted copy is in the saved state
  (`Sync.NamesFree`). A push that reaches a session between its two first passes does not name a conflicted
  copy like a file on the server.

## What does not hold

- **A change or a join inside a take-over.** The new primary accepts both as soon as its role is
  set, before it has linked its backups. README.md:268 of the service promises clients that no live server
  lacks a change once it is acknowledged; the model follows the code. A change that is acknowledged is on
  every live server if and only if each of them was linked when the change began or had it already
  (`AcknowledgedEverywhereIff`), and it survives whatever crashes follow under the same condition and no other
  (`ChangeSurvivesIff`; `AcknowledgedChangeLost` is a run in which it does not). After a join there is never more
  than one leader, whatever follows as long as it is prudent, if and only if the primary was linked to every
  live server (`JoinKeepsLeaderIff`; `CarelessJoinSplits` and `IdGivenTwice` are runs in which it was not). Changes
  can do the same harm by leaving a backup with a file where the primary has a folder, so that it cannot be
  attached (`CarelessChangesSplit`).
- **A join cut short.** If the primary crashes before it has told everyone about the newcomer, the same
  holds if and only if no live server is left that was not told (`CutJoinKeepsLeaderIff`). No primary can see to
  that.
- **Stores too large for a manifest.** A backup answers ReplicaAttach with its whole manifest in one message
  (server/cluster.cpp:536), and a message of more than 1 MiB is not sent (common/connection.cpp:68,
  common/protocol.hpp:18). The new primary takes that for a dead backup and removes it from its list
  (server/cluster.cpp:794-797). After an attachment there is never more than one leader, whatever follows as
  long as it is prudent, if and only if the member is dead or its manifest fits (`AttachKeepsLeaderIff`;
  `OutgrownStoreSplits` is a run to two leaders, for any store that does not fit). The primary then has a
  link to every member it still lists, and the next change it acknowledges can be lost (`TooLargeThenLost`, for
  every such state; `OutgrownStoreLosesChange`, from the start). 37450 files are enough, however short their
  names (`OutgrownStoreExists`).
- What is proved of whole runs is therefore for those in which primaries let joins and changes in only with
  a link to every member they list, and no backup's manifest outgrows a message when it is attached: the
  prudent runs. A server can see both for itself (`ClusterRuns.Prudent`). Elections, take-overs and crashes
  happen at any moment. `SafeRunsOneLeader` and `SafeRunsLoseNothing` say the same for runs whose steps pass no
  live server over (`ClusterRuns.Safe`), which is less to ask. For a join or an attachment that condition is
  exactly what the single leader needs (`LeadershipEndsIff`, for every such run), for a change it is exactly what
  the change needs to survive (`ChangeSurvivesIff`). The two statements about leaders presuppose that the ids,
  which run from 1000 down, have not run out.
- **PushDelete.** A deletion pushed by the server removes the local file without looking at the base, so
  it loses an edit exactly when it hits one (`PushedDeleteKeepsEditsIff`).
- **Conflicted copies in deep folders.** README.md:83 says that conflicted copies are synced as files are. One is
  if and only if the lengths of the folder's path, the stem, the extension and the tag leave room for it
  (`CopyIsValidPathIff`); there is a valid name none of whose copies can be synced (`DeepCopyIsInvalid`).
- **Long server lists.** The count is cast to sixteen bits, so a list comes back whole if and only if it has at
  most 65535 entries (`ServerListReturnsIff`).
- **Long listings.** A user whose listing exceeds 1 MiB cannot be listed (server/server.cpp:268); a client's
  pass then changes nothing (`NotListed` in `SyncClient.SyncDir.Reconcile`).
- common/files.hpp:21 calls the hash FNV-1a; the start value in common/files.cpp:29 is not the published
  one. The model uses the code's constant and claims no conformance.

## Model

| member | source | states |
|---|---|---|
| ClusterTheorems.AlwaysOneLeader | server/cluster.cpp:704-800 | in every state of every prudent run, with any number of elections at once and crashes anywhere, at most one live server is primary, none outranks it, and live ids are distinct |
| ClusterTheorems.SafeRunsOneLeader | server/cluster.cpp:704-800 | the same for every run whose steps pass no live server over |
| ClusterLeaders.JoinKeepsLeaderIff | server/cluster.cpp:188-241 | after a join no prudent continuation ever has two leaders, or one id twice, if and only if the primary was linked to every live server |
| ClusterLeaders.CutJoinKeepsLeaderIff | server/cluster.cpp:230-241 | the same after a join in which the primary crashes when it has told only some: if and only if every live server is among those |
| ClusterLeaders.AttachKeepsLeaderIff | server/cluster.cpp:786-800 | the same after an attachment: if and only if the member is dead or its manifest fits in one message |
| ClusterLeaders.LeadershipEndsIff | server/cluster.cpp:188-274 | in every run, up to the first join or attachment that passes a live server over the single leader is safe, and after that step it is not |
| ClusterLeaders.StrangersSplit | server/cluster.cpp:188-241 | a primary that does not know a live server, though it is linked to all it lists, needs one join and one crash to leave two leaders |
| ClusterTheorems.AcknowledgedChangesSurvive | server/server.cpp:295-315 | over any prudent run the history of changes only grows, and whoever is primary has exactly the files that history gives, give or take the one change still being replicated, and every account a user was told it has |
| ClusterTheorems.SafeRunsLoseNothing | server/server.cpp:295-315 | the same for every run whose steps pass no live server over |
| ClusterTheorems.PrudentRunIsSafe | server/cluster.cpp:758-800 | what the servers involved can see for themselves, at every join, change and attachment of a run, is enough for none of them to pass a live server over |
| ClusterTheorems.UnacknowledgedNeedsCrash | server/server.cpp:341-358 | changes that took effect without their client being told are at most as many as the crashes of the run |
| ClusterTheorems.PrimaryStays | server/cluster.cpp:814-891 | no step other than its own crash deposes a live primary, whoever suspects it |
| ClusterTheorems.LinkedBackupsMirror | server/cluster.cpp:396-422 | in every run that passes no live server over, between changes every live backup with a link has exactly the primary's files and all its accounts |
| ClusterTheorems.JoinIsSafeIff | server/cluster.cpp:188-241 | a join keeps the invariant, and all live servers know each other after it, if and only if the primary was linked to all of them; what that means for leaders is `JoinKeepsLeaderIff` |
| ClusterTheorems.AttachIsSafeIff | server/cluster.cpp:267-274 | an attachment keeps the invariant if and only if the member is dead or its manifest fits in one message; what that means for leaders is `AttachKeepsLeaderIff` |
| ClusterTheorems.TooLargeIsDropped | server/cluster.cpp:794-797 | a live member whose manifest does not fit is taken off the list while it lives, and the servers no longer all know each other |
| ClusterChanges.AcknowledgedEverywhereIff | server/cluster.cpp:396-432 | whatever happens between its beginning and its acknowledgement, elections and crashes included, the change is then on every live server if and only if each was linked when it began or had it already |
| ClusterChanges.ChangeSurvivesIff | server/cluster.cpp:396-432 | whatever follows, no later primary lacks the change if and only if every live server was linked when it began or had it already |
| ClusterChanges.PassedOverLoses | server/cluster.cpp:396-432 | from any such state a continuation acknowledges the change and ends with a primary that lacks it |
| ClusterChanges.TooLargeThenLost | server/cluster.cpp:794-797 | after an attachment that fails for the manifest's length, a change that the dropped backup lacks can be acknowledged and lost |
| ClusterRecovery.AlwaysRecovers | server/cluster.cpp:704-812 | after every prudent run, with any servers crashed at any moments in it, there is a prudent continuation without a join, a change or another crash to a state in which one primary is linked to every live server and all of them follow it, if manifests fit and no change is under way |
| ClusterRecovery.ClusterRecovers | server/cluster.cpp:704-812 | the same from any state that keeps the invariant: the highest live server wins an election, tells everyone and takes everyone in |
| ClusterSteps.TakeOverLinksAll | server/cluster.cpp:786-800 | in every safe run in which a primary does not crash and tries to attach each member it lists without a link, whatever else happens, it ends up linked to everyone on its list and to every live server |
| ClusterSteps.TakesEveryoneIn | server/cluster.cpp:786-800 | attaching each of those members once, and nothing else, is a prudent run and leads there |
| ClusterSteps.LinkedChangeIsEverywhere | server/cluster.cpp:396-432 | a change begun at a primary linked to everyone shows on every live server when it is acknowledged: the file with those contents, no file, or the account, and no other file changed; whatever happens in between |
| ClusterSteps.TakeOverThenChange | server/cluster.cpp:786-800 | so is one begun after a take-over that has attached everyone |
| ClusterSteps.TakeOverIsKnown | server/cluster.cpp:786-812 | once a primary has announced itself to the members it lists, every live server names it as the primary, newcomers included, and nobody else leads, in every safe continuation until it crashes |
| ClusterSteps.AnnouncementIsObeyed | server/cluster.cpp:858-891 | a live server that is told of the leader is a backup with that leader as its primary |
| ClusterSteps.AttachmentLinks | server/cluster.cpp:324-339 | a live member that can be attached is linked afterwards, under its address, follows the primary, and has its files and accounts |
| ClusterSteps.TellInforms | server/cluster.cpp:452-469 | a linked live backup has the primary's member list once that was sent |
| ClusterSteps.DropForgets | server/cluster.cpp:434-450 | a dead backup, and nobody else, loses its link and its place on the list |
| ClusterSteps.ForwardForgets | server/cluster.cpp:396-450 | so it is if a change does not reach it |
| ClusterSteps.RelistLists | server/cluster.cpp:826-841 | a candidate without a link is on the list afterwards, and no new id comes out at or above its own |
| ClusterSteps.AccountsStay | server/cluster.cpp:295-301 | in every run no server ever loses a user's account |
| ClusterTheorems.StepInv | server/cluster.cpp:188-241 | every step that passes no live server over keeps the views, ranks, candidates' knowledge, replicated files and accounts consistent; what the steps achieve is in `ClusterSteps` |
| ClusterSafety.RelistedSame | server/cluster.cpp:826-841 | where the views fit together, a live primary has every candidate on its list already, so taking one back changes nothing |
| ClusterSafety.ConcludeView | server/cluster.cpp:704-800 | a candidate without an answer outranks every live server, so taking over keeps the views consistent |
| ClusterSafety.JoinView | server/cluster.cpp:195-240 | a join at a primary linked to all gives an id nobody has and leaves every server knowing every other |
| ClusterSteps.JoinTakesIn | server/cluster.cpp:195-240 | a newcomer is listed and linked under an id below every live one, is the primary's backup, has its files and accounts and its member list |
| ClusterSafety.SettledReaches | server/cluster.cpp:758-800 | a primary with a link to every member on its list, as after a take-over, is linked to every live server |
| ClusterSafety.AttachTriedView | server/cluster.cpp:793-800 | attaching a live member that can be attached, or giving up on a dead one, keeps the views consistent; that the primary is linked to it then is `ClusterSteps.AttachmentLinks` |
| ClusterFiles.AttachableIffFits | server/cluster.cpp:243-339 | of any two live servers of a run either can be brought in line by the other if and only if its manifest fits in one message |
| ClusterFiles.ForwardedInv | server/cluster.cpp:396-450 | sending a change to one more backup, reachable or not, keeps views, files and accounts consistent |
| ClusterMishaps.AcknowledgedChangeLost | server/cluster.cpp:758-800 | a run in which a change accepted during a take-over is acknowledged and then lost |
| ClusterMishaps.IdGivenTwice | server/cluster.cpp:203-241 | a run in which a join during a take-over leads to two live servers with one id |
| ClusterMishaps.CarelessJoinSplits | server/cluster.cpp:203-241 | one join during a take-over, with only prudent steps before and after it, ends with two leaders or one id twice |
| ClusterMishaps.CarelessChangesSplit | server/cluster.cpp:302-314 | two changes during a take-over, with only prudent steps before and after them, end the same way: the live backup's file is in the way of the new primary's folder |
| ClusterMishaps.OutgrownStoreSplits | server/cluster.cpp:786-800 | with any store that does not fit, the attachment of an ordinary take-over, with only prudent steps before and after it, ends the same way |
| ClusterMishaps.OutgrownStoreLosesChange | server/cluster.cpp:794-797 | with any store that does not fit, a prudent run up to an ordinary take-over after which a change is acknowledged by a primary linked to all it lists, and lost |
| ClusterMishaps.OutgrownStoreExists | common/connection.cpp:66-70 | such stores exist for every number of files from 37450 on |
| Sizes.ManyFilesDoNotFit | common/connection.cpp:66-70 | no manifest of 37450 files or more can be sent |
| Sizes.MeasureManifest | server/cluster.cpp:647-667 | the length of a store's manifest, in whatever order it is added up |
| Manifests.ManifestLength | server/cluster.cpp:647-667 | however a store is listed, its manifest has that many bytes, and can be sent if and only if they fit |
| Manifests.MemberListFits | server/cluster.cpp:267-270 | the list of up to a thousand members always fits in a message |
| Stores.OneChangeApart | server/storage.cpp:97-110 | an accepted change keeps a store free of file and folder clashes, and two stores one change apart do not clash with each other |
| ClusterNode.Node.StartAsPrimary | server/cluster.cpp:61-73 | the founder's view: it alone, with the first id, as primary |
| ClusterNode.Node.Upsert | server/cluster.cpp:26-35 | the first entry with the id is replaced, or the member appended; with one entry per id the map is updated at the id alone |
| ClusterNode.Node.AddMember | server/cluster.cpp:159-164 | for any list the upsert and the smaller counter; with one entry per id what the cluster runs do with a new member |
| ClusterNode.Node.RemoveMember | server/cluster.cpp:166-172 | every entry with the id goes, all others stay in order |
| ClusterNode.Node.AssignId | server/cluster.cpp:203-216 | the id last listed for the address, or one below every listed id and the counter |
| ClusterNode.Node.Outranking | server/cluster.cpp:709-722 | exactly the entries with a higher id, in order |
| ClusterNode.Node.BecomePrimary | server/cluster.cpp:762-784 | for any list the take-over in place: the old primary off the list, the counter at the lowest id left, and everyone else to be told; with one entry per id that of the cluster runs |
| ClusterNode.Node.HandleCoordinator | server/cluster.cpp:858-891 | obeys a leader exactly if it is not outranked, for any list, and drops its links if it was primary; otherwise changes nothing |
| ClusterNode.Node.HandleReplicaAttach | server/cluster.cpp:493-519 | takes the sender for primary and its list, whatever it holds, for the members, with itself updated or appended; drops its links if it was primary |
| ClusterNode.Node.HandleMembership | server/cluster.cpp:618-628 | takes the list, whatever it holds, with itself updated or appended |
| Replication.PrimarySide.Handle | server/cluster.cpp:581-645 | a backup refuses exactly the files with an invalid name or a clash with its own and the invalid account records, passes over invalid deletions, and otherwise does what the message says |
| Replication.PrimarySide.PutOnLink | server/cluster.cpp:342-360 | a name that is gone counts as sent and changes nothing, otherwise it is sent as the store has it |
| Replication.PrimarySide.Broadcast | server/cluster.cpp:452-469 | terminates whatever links fail; every link left has the current list, and only crashed members went |
| Replication.PrimarySide.DropLink | server/cluster.cpp:434-450 | the mutual recursion with the broadcast ends; the member is off the list and the others were told |
| Replication.PrimarySide.SendAccounts | server/cluster.cpp:295-301 | missing and differing account records are sent; what the backup already has right is left alone |
| Replication.PrimarySide.SendFiles | server/cluster.cpp:302-314 | missing and differing files are sent; refused only if some file clashes |
| Replication.PrimarySide.DeleteExtras | server/cluster.cpp:315-322 | what the primary does not have is deleted, so the files are equal |
| Replication.PrimarySide.RequestManifest | server/cluster.cpp:267-274 | a manifest comes back if and only if the server stays up and it fits in one message |
| Replication.PrimarySide.AttachReplica | server/cluster.cpp:243-339 | true if and only if the server stays up, its manifest fits and the stores do not clash; then its files equal the primary's and it has all accounts, otherwise no link is added |
| Replication.PrimarySide.Replicate | server/cluster.cpp:382-422 | every backup that stays linked has applied the change, only crashed ones do not stay, exactly those are off the member list, and the others have the list as it is then |
| Replication.PrimarySide.HandleUpload | server/server.cpp:274-315 | stored here and on every linked backup if the path is valid and nothing is in its way, or refused with nothing changed anywhere |
| Replication.PrimarySide.HandleDelete | server/server.cpp:331-358 | deleted here and on every linked backup, or nothing changed if there was no such file |
| Replication.PrimarySide.Authenticate | server/server.cpp:139-169 | a new user gets an account that every linked backup has too; an existing one, also one that came in while the record was made, is let in if and only if the password matches; no existing account changes |
| Records.MadeRecordIsValid | server/accounts.cpp:155-179 | every record the server makes is one its backups take |
| Records.RecordIsValidIff | server/accounts.cpp:59-74 | a backup takes exactly the records of the scheme's form: a count of up to nine digits that is not zero, salt and 64 digits of hash in lower-case hexadecimal, dollar signs between them and perhaps at the end |
| Replication.BackupStaysWellKept | server/cluster.cpp:581-645 | whatever messages arrive, a backup never stores an invalid name, an invalid record, or a file in the way of another |
| SyncTheorems.BrokenPassLosesNothing | client/client.cpp:488-552 | wherever a pass breaks off, applied or not, every local edit is still on disk or server under its name or in a copy, and every remote edit on the server |
| SyncTheorems.PartPassLosesNothing | client/client.cpp:454-561 | the same for a pass that was completed, with any of its names rejected by the server |
| SyncTheorems.OnePassAgrees | client/client.cpp:488-553 | after one completed pass disk, server and base agree on every name considered; other names are new copies only on disk |
| SyncTheorems.ThreePassesSettle | client/client.cpp:488-553 | from any state a first pass agrees, a second syncs the copies too, a third transfers nothing |
| Sync.UncountedMovesNothing | client/client.cpp:515-545 | a visit that counts as no transfer changes neither disk nor server |
| SyncOutcomes.WhoWins | client/client.cpp:488-552 | for every name visited, the server's version wins if the server alone has changed, or both have and it still has the file; otherwise what is on disk wins; the other side then has the winner's contents, or none |
| SyncOutcomes.OneSidedChangeSpreads | client/client.cpp:505-509 | a new file, an edit or a deletion on one side alone is on both afterwards |
| SyncOutcomes.DeletionSpreads | client/client.cpp:505-545 | a file deleted on one side and untouched on the other is gone from both, and from the base |
| SyncOutcomes.ModifiedBeatsDeleted | client/client.cpp:510-533 | a file modified on one side and deleted on the other is kept, as modified, on both |
| SyncOutcomes.ConflictKeepsBoth | client/client.cpp:534-540 | a file modified on both sides has the server's version under its name and the local one in a conflicted copy |
| SyncTheorems.InstalledLosesNothing | client/client.cpp:617-647 | a file pushed by the server never costs a local edit |
| SyncTheorems.PushedDeleteKeepsEditsIff | client/client.cpp:711-724 | a pushed deletion keeps every local edit if and only if it does not hit one |
| SyncSessions.SessionsConverge | client/client.cpp:454-561 | any number of sessions, from any states and with any pushes at any time in the first round, all hold exactly the server's files after two passes each in turn and then one more each |
| SyncPass.VisitGoing | client/client.cpp:488-552 | handling one name from a stale snapshot keeps the pass invariant, also when a new copy has the name of one still to come |
| SyncEvents.PushedFileNotSentBack | client/client.cpp:649-685 | a pushed file is not uploaded back by any run of events and rescans until the user changes it or the server deletes it |
| SyncEvents.QueueStaysOk | client/client.cpp:747-784 | the queue never holds a name twice and `queued_` is exactly its contents |
| SyncEvents.EventsNotMissed | client/client.cpp:747-784 | in every run a name whose event has arrived is queued or taken and still to be compared, until it has been compared |
| SyncEvents.EventAfterTakeCounts | client/client.cpp:764-782 | an event about a name that was taken off the queue, but not compared yet, queues it again |
| SyncEvents.ComparisonSyncs | client/client.cpp:649-685 | a comparison that finds a difference and is accepted leaves server, base and disk in agreement on the name |
| SyncEvents.NothingToSendIff | client/client.cpp:649-685 | a comparison finds nothing to send exactly if the name was neither created nor modified nor deleted since the last sync |
| SyncRuns.ComparisonMeans | client/client.cpp:649-685 | what each outcome of a comparison leaves: disk and other names as they were; only an accepted one is recorded as synced, a refused upload changes nothing, a refused deletion is forgotten, and a lost connection leaves the base as it was |
| SyncRuns.ComparedEdit | client/client.cpp:664-672 | a local edit is still one after any comparison, of its own name or another, unless the server accepted it and has its contents |
| SyncRuns.EditSurvives | client/client.cpp:649-685 | over every run without a further edit or pushed deletion of the name, and a pass after it that may break off anywhere, a local edit is on disk, on the server or in a conflicted copy, unless the server itself pushed the very contents |
| SyncRuns.RescanComparesAll | client/client.cpp:786-805 | from every scan to its end, each name on disk or in the base at the scan is compared, whatever happens in between |
| SyncRuns.RescanSyncsAll | client/client.cpp:786-805 | if all comparisons are accepted and nothing else happens, no name has anything left to send, and the server has what is on disk under each that had |
| SyncRuns.PushArrives | client/client.cpp:617-647 | a pushed file is on disk and in the base under its name, and nothing else on disk is lost |
| SyncRuns.CopyIsMadeIff | client/client.cpp:617-647 | a push makes a conflicted copy if and only if there is an edit that it would overwrite with other contents |
| SyncRuns.PushedDeletionArrives | client/client.cpp:711-724 | a pushed deletion removes the name from disk and base and nothing else |
| SyncClient.SyncDir.FillHash | client/client.cpp:566-574 | the base's hash if size and time match it, the file's own otherwise |
| Sync.SeenIsTrueIff | client/client.cpp:566-574 | that hash is the one of the contents on disk unless they were changed under the same size and time, and only then |
| SyncClient.SyncDir.Install | client/client.cpp:617-647 | in place the installation the theorems are about, displacing an unsynced version to a free name |
| SyncClient.SyncDir.ReconcileName | client/client.cpp:489-552 | one round of the loop does the visit the theorems are about, changes nothing if the server rejects it, or breaks off with the request applied or not; what a visit leaves under its name is `SyncOutcomes.WhoWins` |
| SyncClient.SyncDir.Reconcile | client/client.cpp:454-561 | nothing, a pass over all names but those the server rejected, or a pass broken off over one of them |
| SyncClient.SyncDir.SyncLocalChange | client/client.cpp:649-685 | compares one name with the base and sends it only if they differ; accepted, rejected or cut off, what the runs of single changes say and `SyncRuns.ComparisonMeans` is about |
| SyncClient.SyncDir.Enqueue | client/client.cpp:747-757 | queues a name unless it is waiting already |
| SyncClient.SyncDir.TakeName | client/client.cpp:764-772 | takes the front name off the queue, before and apart from the comparison |
| SyncClient.SyncDir.CompareTaken | client/client.cpp:773-782 | compares the name that was taken, and is free for the next |
| SyncClient.SyncDir.CollectNames | client/client.cpp:790-801 | a rescan first collects every name on disk or in the base, as `SyncRuns.RescanSyncsAll` needs |
| SyncClient.SyncDir.CompareNext | client/client.cpp:801-805 | compares one of the collected names, or ends the rescan when none is left |
| ConflictNames.CandidatesDiffer | client/client.cpp:589-614 | no two attempts give the same name, also when the name had to be cut |
| ConflictNames.ConflictNameIsFree | client/client.cpp:585-615 | the search ends after at most one attempt more than there are files, at the first attempt that is free |
| ConflictNames.SearchName | client/client.cpp:602-614 | the loop finds that name |
| ConflictNames.ComponentValid | client/client.cpp:588-606 | the new component is a valid file name of at most 255 bytes |
| ConflictNames.CopyHasExtension | client/client.cpp:585-606 | the component begins as the original does, has the tag after that and keeps the extension, up to 31 characters of it; the beginning is cut only to make the whole 255 long |
| ConflictNames.CopyWithoutExtension | client/client.cpp:585-606 | without a dot, or with one only in front, the tag comes last |
| ConflictNames.CopyInFolder | client/client.cpp:585-606 | the copy is in the original's folder |
| ConflictNames.CopyIsValidPathIff | client/client.cpp:585-615 | the copy's path is valid if and only if the lengths of the folder's path, the stem, the extension and the tag leave room for it |
| ConflictNames.DeepCopyIsInvalid | client/client.cpp:585-615 | a valid name whose copies are invalid at every time and attempt |
| ConflictNames.ShallowCopyIsValid | client/client.cpp:585-615 | in a folder whose path has at most 768 bytes every copy is valid |
| StateFile.SavedStateLoads | client/sync_state.cpp:21-63 | loading what was saved gives the same map, for any valid paths, sizes, hashes and signed times, in any order of entries |
| StateFile.LineReads | client/sync_state.cpp:29-58 | a saved line reads back as its entry, also with leading spaces in the name and negative times |
| StateFile.LoadedNamesValid | client/sync_state.cpp:37-39 | whatever the file holds, only valid paths are loaded |
| StateFile.LinesMean | client/sync_state.cpp:28-43 | of the lines for a name the last one counts, and lines that are no entry count for nothing |
| StateFile.ThrowingLineBreaks | client/sync_state.cpp:41 | a line whose hash is no number ends the loading: what was read before it stays, nothing after it is read |
| StateFile.DamagedLine | client/sync_state.cpp:31-41 | a line with an invalid name is passed over, one with a hash that is no number throws |
| StateFile.HeaderDecides | client/sync_state.cpp:24-27 | any other first line means that nothing was synced |
| StateFile.SyncState.Load | client/sync_state.cpp:21-44 | the entries the file's text means, or an exception with those read so far |
| StateFile.SyncState.Save | client/sync_state.cpp:46-63 | a file that loads as exactly these entries, or the old file untouched |
| Decimals.HexRoundTrip | client/sync_state.cpp:54-56 | a number below 16 to the width reads back from its padded hexadecimal digits |
| Paths.CheckPath | common/files.cpp:104-122 | the scan accepts exactly the paths of at most 1024 bytes and 32 valid components, and they are the harmless ones of `PathIsValidIff` |
| Paths.PathIsValidIff | common/files.cpp:86-122 | a path is valid if and only if going along it one component at a time, with "." staying and ".." going up, never leaves the folder and ends at exactly its components, and none is too long, has an unprintable character or begins with the reserved prefix |
| Paths.UserIsValidIff | common/files.cpp:124-137 | a user's name has one to 32 characters, each a letter, a digit, an underscore or a dash |
| Paths.SplitJoin | common/files.cpp:104-122 | joining components without slashes and splitting gives them back |
| Paths.JoinSplit | common/files.cpp:104-122 | splitting any path and joining gives it back |
| Paths.BelowParent | common/files.cpp:147-151 | the folders above a path are its parent and the folders above that |
| StorageTree.FreeMeans | common/files.cpp:175-192 | a path is free exactly if it is no folder and no folder on the way to it is a file |
| StorageTree.OccupiedIsNeeded | common/files.cpp:165-173 | a folder that cannot be removed because it holds something is needed by a stored file, and so is all above it |
| StorageTree.AllThroughEntries | common/files.cpp:226-255 | the entries of a folder lead to every stored file in it |
| Storage.FullPathInjective | server/storage.cpp:35-43 | distinct users or paths have distinct full paths, so no two files share a cache entry |
| Storage.KeysLeadApart | server/storage.cpp:35-43 | going along a stored file's full path leads to exactly its components in its own user's folder, and to the same place for no two files |
| Storage.Store.Commit | server/storage.cpp:97-110 | stored if and only if nothing lies above or below the path; a refused commit changes neither files nor folders; folders and cache stay exact |
| Storage.Store.MakeDirs | common/files.cpp:175-192 | succeeds exactly if no file is on the way, and then exactly the folders on the way were made |
| Storage.Store.Remove | server/storage.cpp:112-121 | the file and exactly the folders only it needed go, and its cache entry |
| Storage.Store.RemoveEmptyParents | common/files.cpp:165-173 | leaves exactly the folders that stored files need |
| Storage.Store.Walk | common/files.cpp:226-255 | finds exactly the stored files in the folder, however deep |
| Storage.Store.List | server/storage.cpp:72-95 | the listing equals the one from hashing every stored file afresh |
| Fnv.UpdatedSplits | common/files.cpp:17-30 | however the data is cut, the hash is that of the whole |
| Fnv.ChangedByteShows | common/files.cpp:17-30 | one changed byte anywhere changes the hash, whatever comes before and after it |
| Fnv.Fnv1a.Update | common/files.cpp:19-25 | the loop computes the hash the lemmas are about |
| Fnv.HashChunks | common/files.cpp:69-84 | the chunked hash of a file equals that of its contents; false exactly if the file ends early |
| Wire.U64Exact | common/protocol.cpp:63-115 | a 64-bit number is read, with what follows it, from exactly the bytes written for it |
| Wire.I64Exact | common/protocol.cpp:69-120 | the same for signed numbers, across the unsigned cast |
| Wire.StrExact | common/protocol.cpp:74-127 | the same for strings of at most 65535 bytes |
| Wire.BigEndian | common/protocol.cpp:55-72 | numbers go out in two, four or eight bytes, the most significant first |
| Wire.ServerLayout | common/protocol.cpp:129-141 | where id, host and port of a server lie among its bytes |
| Wire.FileInfoLayout | common/files.cpp:320-345 | where name, size, time and hash of a file lie among its bytes, the time in two's complement |
| Wire.ManyExact | common/protocol.cpp:143-158 | the same for a list of any codec that has the property |
| Wire.FileInfoExact | common/files.cpp:320-345 | the same for a file info |
| Wire.UploadExact | server/server.cpp:277-279 | the same for an upload's origin and file header, which leaves out the hash |
| Wire.ManifestExact | server/cluster.cpp:647-667 | the same for a manifest with its two counted lists |
| Wire.ServersRead | common/protocol.cpp:143-158 | a list of any length is read up to the cast count, in order, and the rest is left over |
| Wire.ServerListReturnsIff | common/protocol.cpp:143-158 | a server list comes back whole if and only if it has at most 65535 entries |
| Messages.Writer.Str | common/protocol.cpp:74-82 | throws exactly for strings over 65535 bytes, with nothing written |
| Messages.Writer.WriteServers | common/protocol.cpp:143-149 | appends the list's bytes, or throws if some host is too long |
| Messages.Writer.WriteFileInfo | common/files.cpp:334-338 | appends the file info's bytes, or throws if the name is too long |
| Messages.Reader.Take | common/protocol.cpp:84-92 | the next bytes if there are enough, no step otherwise, and never beyond the payload |
| Messages.Reader.U64 | common/protocol.cpp:111-115 | reads what the format says or throws, within the payload |
| Messages.Reader.Str | common/protocol.cpp:122-127 | reads what the format says or throws, within the payload |
| Messages.Reader.ReadServers | common/protocol.cpp:151-158 | reads what the format says or throws, within the payload |
| Messages.Reader.ReadFileInfo | common/files.cpp:340-345 | reads what the format says or throws, within the payload |
| Messages.BuildManifest | server/cluster.cpp:647-667 | writes the manifest's bytes, or throws if some text is too long |
| Messages.ReadManifest | server/cluster.cpp:276-293 | gives the maps that the entries mean, or fails exactly if the payload is short |
| Messages.ManifestReturns | server/cluster.cpp:276-293 | a manifest listed from two maps in any order gives the primary exactly those maps |
| Frames.FrameReadsBack | common/connection.cpp:66-77 | a frame is read back as its message, leaving exactly what follows it |
| Frames.HeaderLayout | common/connection.cpp:66-77 | two bytes of kind, two zeros, four of length, then the payload |
| Frames.ReceivedFits | common/connection.cpp:148-173 | whatever arrives, a message has at most 1 MiB and takes exactly its header and payload from the stream |
| Frames.TooLongIsRefused | common/connection.cpp:163-165 | a header that announces more is refused, whatever follows it |
| Frames.CutFrameIsBroken | common/connection.cpp:148-173 | part of a frame is never taken for a message |
| Frames.FramesReadBack | common/connection.cpp:66-173 | any sequence of messages parses back as the same sequence, leaving the stream just past it |
| Frames.Connection.RecvMany | common/connection.cpp:148-173 | receives in a row give what the stream parses to, however it is split into pieces; on a steady stream they fail exactly if it ends early or breaks |
| Frames.Connection.RecvSent | common/connection.cpp:66-173 | over a steady stream delivered in any pieces, receiving gives exactly the messages that were sent and leaves what follows |
| Frames.Connection.ReadExact | common/connection.cpp:135-146 | the next bytes, however they are split, placed where asked; on a steady stream false exactly if it ends early |
| Frames.Connection.Recv | common/connection.cpp:148-173 | a result is the first frame of the stream and takes exactly it; a timeout takes nothing; a steady stream yields every whole frame |
| Frames.Connection.SendLocked | common/connection.cpp:66-77 | the whole frame, a proper part of it on failure, nothing for a payload over the limit |
| Transfer.SendFile | common/files.cpp:347-401 | header and body as announced, or a proper part before the connection broke; too short a file ends in an abort |
| Transfer.StoredFileIsNotAborted | server/cluster.cpp:342-360 | a transfer of a file that keeps its announced size is never aborted |
| Transfer.RecvFileBody | common/files.cpp:403-457 | a file of exactly the announced size with its hash, or none; on success or a file error the stream is just past the terminator, also if the disk fails |
| Transfer.BodyArrives | common/files.cpp:347-457 | every file arrives as the same bytes, a file that shrank is given up, and the stream is left just past the terminator |
| Transfer.CutBodyIsBad | common/files.cpp:403-457 | a body cut off anywhere is never taken for a file |
| Transfer.AnyPieces | common/files.cpp:403-457 | whatever pieces data comes in and whatever message comes after them, the body is complete only at the terminator and with exactly the announced size, given up only at an abort, and bad after any other kind of message or one byte too many |
| Transfer.FirstMessageIsRead | common/files.cpp:347-371 | the receiver reads the kind of the first message, what precedes the header, and the file's name, size and time |
| Transfer.UploadIsRead | server/server.cpp:277-279 | for an upload that is the origin and the file's header |
| Transfer.PiecesAreFull | common/files.cpp:378-395 | a file goes out in pieces of 64 KiB, of which only the last may be shorter, and none is empty |

## Left out

- TLS, sockets, polling, time limits and name resolution: a read returns any non-empty piece, and a failure is a step that may happen wherever the code allows one.
- Heartbeats and grace periods: suspicion may happen at any time, so the claims do not depend on clocks.
- Password hashing, tokens, session limits, the health monitor, command lines, logging and formatting.
- The directory watcher: events, duplicates and rescans arrive in any number and order.
- Network partitions, messages handled after their sender crashed, a crashed server that returns on its old address, joins interleaved with each other or with broadcasts (apart from `ClusterLeaders.CutJoinKeepsLeaderIff`), member lists that are out of date when they are sent, and listings interleaved with commits.
- The wait after an answered election: the thread goes back to idle and may suspect again at once, which allows more runs than the code.
- Runs identify file contents by hash and size and keep the member list as a map by id; `ClusterNode` has the vector.
- A join whose attachment fails: the newcomer, which has been told its id already, is taken off the list again (server/cluster.cpp:236-239); the runs have only joins that succeed.
- Aborted transfers on a replica link: with the write lock held a stored file is only ever replaced by a rename, so its open copy keeps its size and `Transfer.StoredFileIsNotAborted` applies.
- The order in which listings, names and saved entries are sorted: the theorems hold for any order.
- Attempts at a conflicted name are counted without bound; `ConflictNames.ComponentValid` is for attempts that a 32-bit counter reaches.
- ClusterTheorems.AlwaysOneLeader: for prudent runs, because `ClusterLeaders.LeadershipEndsIff` shows that one join or attachment that passes a live server over is enough to end it.
- ClusterTheorems.SafeRunsOneLeader: also asks of changes that they pass nobody over, because `ClusterMishaps.CarelessChangesSplit` shows that two changes that do are enough to end it; what one of them costs is in `ClusterChanges.ChangeSurvivesIff`.
- ClusterTheorems.AcknowledgedChangesSurvive: for prudent runs, because `ClusterChanges.ChangeSurvivesIff` shows that a change which passes a live server over can be lost, and `ClusterChanges.TooLargeThenLost` how an attachment leads there.
- ClusterTheorems.PrimaryStays: does not cover a call that is handled after its caller crashed, because a call is one step.
- ClusterRecovery.ClusterRecovers: from states without a change under way, because one that is ends first, with its acknowledgement or its primary's crash; and if the manifests of the other live servers fit, because `ClusterTheorems.TooLargeIsDropped` shows what happens to one that does not.
- SyncRuns.EditSurvives: not for an edit whose very contents the server pushes in the meantime, because they then count as synced and a later version from the server replaces them.
- Replication.PrimarySide.PutOnLink: does not have the aborted transfer that counts as sent (server/cluster.cpp:359), because the file sent is the stored one and keeps its size, for which `Transfer.StoredFileIsNotAborted` rules an abort out.
- SyncSessions.SessionsConverge: a push between a session's first two passes must not give a conflicted copy the name of a file on the server, because that copy is a conflict of its own and takes the session another pass.
- SyncClient.SyncDir.FillHash: does not cover a file that cannot be read, because the client then takes it for missing, which is outside the assumption that it can read its own folder.
- SyncClient.SyncDir.Install: does not cover a file that cannot be put in place, after which the code forgets the name again, because renames in the client's own folder are assumed to succeed.
