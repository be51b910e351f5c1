# Muse Agent Social: a verified model of its protocol state machines

Muse Agent Social is a two-party messaging core over SQLite.  What is hard about it is
a set of state machines that have to survive reordering, duplication, loss and crashes.
This project models them in Dafny, one SQL table to a map and one transaction to a step,
and proves what they keep over every run.  `dafny verify dfyconfig.toml` checks all of it.

## How it is laid out

Where the source changes state, the model has a class whose methods change the same
tables, directories, buffers or line lists statement by statement
(`RotationService.RotationManager`, `SchedulerService.Scheduler`,
`EventService.Receiver` and `SendLog`, `PairFiles.FileSystem`, `CanonicalWriter.Buffer`,
`YamlWriter.LineList`, `WatcherService.LocalTransport` and `Watcher`).  Each method is
proved to do exactly what a function on those values says.  The theorems are of two
kinds: what runs of those functions keep and where they end, and, in the modules named
`…Told`, `…Sweep`, `…Desk`, `…Forgery`, `…Outcomes`, `…Order` and `…Errors`, what each
function does in terms of the rows, clocks, characters and bytes alone, with the exact
condition of each outcome.

| files | what they hold |
|---|---|
| `RotationCore`, `RotationManager` | one side's rotation tables: the functions and the class |
| `RotationInvariant`, `RotationGate`, `RotationReconcile`, `RotationEndState`, `RotationRetention` | one side: the invariant, the epoch gate, re-driven hooks and where they end up, old-key deletion |
| `RotationTold`, `RotationSweep`, `RotationDesk` | one side, by the rows: each handler and a whole rotation, time-outs and deletions, the gate and the human's choices |
| `RotationAgents`, `RotationAgreement`, `RotationHandshake` | two sides over a lossy, reordering, duplicating network: key agreement, and which message implies which |
| `RotationDelivery`, `RotationFifo` | two sides over in-order channels: every envelope can be opened |
| `RotationLimits`, `RotationExchange` | where those two claims stop, exactly, and a whole rotation over the in-order channels |
| `PairDisk`, `PairPublish`, `PairRuns`, `PairFiles` | volatile directory operations, the two-file journal, runs, the class |
| `SchedulerCore`, `SchedulerTold`, `SchedulerRuns`, `SchedulerApprovals`, `SchedulerService` | outbox and approvals: functions, each answer and write by its fields, runs, which approval pays for what, class |
| `EventLog`, `EventRuns`, `EventForgery`, `EventService` | numbering and receiving events: functions, runs of an honest sender, runs of arbitrary envelopes, classes |
| `WatcherCore`, `WatcherRuns`, `WatcherOutcomes`, `WatcherService` | the poll cycle over the filesystem transport: functions, runs, what one cycle does to each object, classes |
| `Canonical`, `CanonicalInverse`, `CanonicalOrder`, `CanonicalErrors`, `CanonicalWriter` | the canonical encoder: bytes and errors, its inverse, key order and characters, which error comes first, the appending methods |
| `YamlText`, `YamlScalars`, `YamlConfig`, `YamlTold` | the restricted YAML subset: characters, scalars, documents, and what is trimmed, cut and quoted |
| `YamlLines`, `YamlRoundTrip`, `YamlCount`, `YamlExact`, `YamlWriter` | one line, whole documents, what a comment loses, the exact condition, the loops |
| `Base` | `Option`, least and greatest element |

## What the code does not do

Each of these is proved with the exact condition and, where a run is needed, the run.

1. **Unbound acknowledgements.**  `begin_rotation` takes an optional prepare event id, and
   the command line leaves it out (`src/muse_agent_social/cli.py:4421`).  An ack then
   matches any prepare for that epoch.  Taking one leaves the sides agreed exactly when it
   names the prepare that the candidate was begun with (`RotationLimits.AckAgreesIff`), and
   `RotationLimits.UnboundAckLocksOut` is a run where it does not.  Key agreement and
   decryptability are proved for all runs in which every ack that a candidate takes is of
   its own prepare, whether or not rows carry event ids; rows that carry one see to that by
   themselves (`RotationAgreement.BoundMeansAnswered`).
2. **A confirm that is sent but not marked.**  The command line sends the confirm, then
   marks it.  If the process stops in between and the peer's commit arrives before the
   confirm is marked after all, the commit is refused and the new key is not among those
   unsealing tries (`RotationLimits.CommitOpensNewKeyIff`,
   `RotationLimits.UnmarkedConfirmLocksOut`).  Decryptability is proved for all in-order runs
   in which a commit that is heard finds its confirm marked and its hook runs then.
   Confirms may be sent, cut off and sent again before that, sending a prepare or a commit
   may be cut off from its marking, and every other hook may be put off to a later poll.
3. **Old keys that are never deleted.**  Retirement falls due by time or by a hundred
   accepted events.  When the newer of two rotations falls due first, the middle key goes,
   the older row is skipped from then on, and the oldest private key is kept forever
   (`RotationRetention.RetiredIff`, `OvertakenStrands`, `StrandedForever`,
   `OldKeyKeptForever`).
4. **A kill inside the commit window of the pair publish.**  `atomic_write_pair` promises
   the old or the new pair after a crash at any point.  Killed (with no loss of power)
   between the rename of the journal and its sync, then recovered, then hit by a power
   loss, it leaves one new file, one old one and no journal
   (`PairRuns.KilledInWindowTears`).  The theorems over runs exclude exactly that stop.
5. **YAML.**  `YamlExact.RoundTripIff` gives the exact class of documents that come back.
   In particular an empty mapping, such as `save_config` of an empty configuration would
   write, does not load again.  After a quoted key that ends in a backslash the comment
   scan takes the quotes for open, so the value survives exactly when its printed text
   shows no comment from there (`YamlExact.ValueUncutIff`, `YamlExact.OpenKeyLosesText`).
6. **Uploads during a poll.**  An object that lands between a cycle's listing and its
   closing `head()` is checkpointed without having been seen, and waits until the next
   upload (`WatcherRuns.LateUploadIff`).  Nothing is lost by it (`WatcherRuns.NothingLost`).
7. **An approval that pays twice.**  The local transport uploads inside the release
   transaction, before the claim commits.  When the process is killed or the transaction
   fails just after the upload, the row goes back to scheduled with its object already on
   the relay.  If that row later expires, or fails for the third time, within the approval's
   lifetime, the approval is given back and can pay for a second event, although the first
   one reached the peer (`SchedulerApprovals.LeakedUploadPaysTwice`).  That is the only way:
   `SchedulerApprovals.ApprovalPaysOnce` is the exact condition over runs, and
   `SchedulerApprovals.QueuedPaysOnce` the unconditional claim when no upload outlives its
   transaction, as with the mutation queue.
8. **Canonical form.**  The encoder also escapes U+007F, which section 3.2.2.2 of RFC 8785
   leaves literal; the model follows the code.  Keys are ASCII here, so the order of
   section 3.2.3 is plain character order.

## Model

| member | source | states |
|---|---|---|
| RotationAgreement.KeyAgreement | src/muse_agent_social/crypto/rotation.py:887-1045 | two sides over a network that loses, reorders and repeats messages, with actions cut short by crashes, bound rows or not: as long as each ack a candidate takes is of the prepare it was begun with, whenever the acking side is confirmed or committed at an epoch, the rotating side holds exactly that key there, or has itself committed a later rotation |
| RotationAgreement.BoundMeansAnswered | src/muse_agent_social/crypto/rotation.py:602-649 | when every rotation is begun with its event id, every ack that is taken is of the candidate's own prepare |
| RotationAgreement.AckMeansStored | src/muse_agent_social/crypto/rotation.py:887-996 | an ack is sent only for a prepare whose key is the stored peer key of that epoch |
| RotationHandshake.ConfirmMeansAnswered | src/muse_agent_social/crypto/rotation.py:695-750 | over the same network, whenever a confirm for one of its rows can reach a side, that side has already sent the ack of exactly the prepare the row is for |
| RotationFifo.Decryptability | src/muse_agent_social/cli.py:1806-1837 | over in-order channels, in every state of every interleaving of rotations, candidate discards and old-key deletions by both sides, with hooks put off and confirms cut off and sent again, as long as a commit that is heard finds its confirm marked and acks answer their own prepares: the next envelope opens with one of the two keys `_try_unseal` picks and every envelope behind it is wrapped to a key its receiver holds |
| RotationFifo.NetStepKeepsInv | src/muse_agent_social/cli.py:2861-2917 | every single action of either side keeps the two-direction channel invariant behind that theorem |
| RotationDelivery.Openable | src/muse_agent_social/cli.py:2861-2917 | under the channel invariant the head of the channel is opened by a tried key |
| RotationFifo.CommitHeard | src/muse_agent_social/crypto/rotation.py:793-857 | a commit at the head of the channel, its confirm marked, passes the unseal and the epoch gate, and is applied |
| RotationExchange.RotationCompletes | src/muse_agent_social/cli.py:4394-4488 | an in-order run of prepare, ack, data, confirm and commit that ends with both sides at the new epoch, nothing under way, the peer sealing to the new key alone and the rotating side opening it |
| RotationExchange.PutOffIsHeard | src/muse_agent_social/cli.py:3790-3955 | re-driving the hook of an envelope taken earlier does what hearing it would have done; an envelope that no tried key opens, or whose stamp no key has reached, changes nothing when heard |
| RotationExchange.CutOff | src/muse_agent_social/cli.py:4416-4488 | a crash cuts off the prepare or the ack but not the tables, and the marking but not the confirm or commit that was sent |
| RotationLimits.AckAgreesIff | src/muse_agent_social/crypto/rotation.py:602-649 | an ack that a candidate takes leaves both sides on one key exactly when it names the prepare that the candidate was begun with |
| RotationLimits.UnboundAckLocksOut | src/muse_agent_social/cli.py:4420-4424 | a run of the command line's own calls, without event ids, in which a candidate takes the ack of another prepare: the sides end with different keys for one epoch and one side's sends cannot be opened |
| RotationLimits.CommitOpensNewKeyIff | src/muse_agent_social/crypto/rotation.py:793-857 | the peer's commit makes the new key one that unsealing tries exactly when the confirm was marked or the last finished rotation was the peer's |
| RotationLimits.UnmarkedConfirmLocksOut | src/muse_agent_social/cli.py:4452-4469 | a run in which the process stops between sending the confirm and marking it: the commit is refused, later envelopes cannot be opened, and repeating the commit does not help |
| RotationInvariant.OneSideSafety | src/muse_agent_social/crypto/rotation.py:1532-1651 | over any run of any handlers, sweeps (also stopped between their transactions) and both human resolutions: own keys exist, at most one rotation is live over both roles and ahead of `key_epoch`, `key_epoch` never falls, sealing always finds its keys, no finished epoch is live again |
| RotationInvariant.ApplyKeepsValid | src/muse_agent_social/crypto/rotation.py:386-1651 | each operation alone keeps that invariant |
| RotationInvariant.DualWrapFindsBoth | src/muse_agent_social/crypto/rotation.py:1047-1069 | with a live acking row the recipients are exactly the current peer key and the new key, stamped with the new epoch |
| RotationInvariant.FreshPrepareShape | src/muse_agent_social/crypto/rotation.py:887-996 | a prepare is taken up only if nothing is in flight, it is in time, and it continues the peer's current key; its epoch is then `key_epoch + 1` |
| RotationInvariant.RedeliveryNeverReopens | src/muse_agent_social/crypto/rotation.py:998-1045 | a redelivered prepare never reopens a rotation, even after its row was compacted away |
| RotationInvariant.CompactKeepsValid | src/muse_agent_social/crypto/rotation.py:1453-1495 | compaction of finished rows, parked signals and old peer keys keeps the invariant |
| RotationTold.BeginIff | src/muse_agent_social/crypto/rotation.py:496-574 | a rotation begins exactly when none is under way; it is for the epoch after `key_epoch`, from the newest own key, due in 24 hours, and nothing else is written |
| RotationTold.AckIff | src/muse_agent_social/crypto/rotation.py:602-667 | an ack is taken exactly for an unbound row or one that names its prepare, as a candidate up to its deadline or again while acknowledged, and it takes up a parked wrap |
| RotationTold.WrapNoted | src/muse_agent_social/crypto/rotation.py:669-693 | a decrypted new wrap marks the row under way, or is parked under the time it came |
| RotationTold.EventCounted | src/muse_agent_social/crypto/rotation.py:859-885 | an accepted event counts for the finished rotation to the current epoch and for no other |
| RotationTold.ConfirmMarkedIff | src/muse_agent_social/crypto/rotation.py:722-750 | marking the confirm moves exactly the acknowledged rotation on; repeats change nothing |
| RotationTold.CommitIff | src/muse_agent_social/crypto/rotation.py:793-857 | a commit promotes exactly a confirmed rotation, `key_epoch` with it; which repeats are accepted and what is refused |
| RotationTold.PeerConfirmIff | src/muse_agent_social/crypto/rotation.py:1093-1122 | a confirm moves exactly the acknowledged acking row of its epoch on; repeats change nothing |
| RotationTold.ConfirmBuiltIff | src/muse_agent_social/crypto/rotation.py:695-720 | a confirm is built exactly for the acknowledged or confirmed rotation whose new wrap was decrypted, and refused for just that while it was not |
| RotationSweep.ConfirmWaits | src/muse_agent_social/crypto/rotation.py:669-720 | over every run from pairing, a confirm is built only after an ack for its epoch came in and an envelope wrapped to its new key was decrypted |
| RotationTold.PrepareIff | src/muse_agent_social/crypto/rotation.py:887-996 | a prepare is taken up exactly when no rotation is under way, it continues the current peer key and it is in time; late ones, crossing ones and unknown priors are refused for just that |
| RotationTold.AckStores | src/muse_agent_social/crypto/rotation.py:887-996 | an ack answers a prepare whose key is now stored as the peer's for that epoch, from a peer key of the epoch before |
| RotationTold.CommitMarkedIff | src/muse_agent_social/crypto/rotation.py:1155-1210 | exactly the confirmed acking row is committed, together with `key_epoch` and the peer key; repeats are accepted once one was committed |
| RotationTold.CommitBuiltIff | src/muse_agent_social/crypto/rotation.py:1124-1153 | the commit is for the confirmed row, or else repeated for the newest committed one |
| RotationTold.SealedTo | src/muse_agent_social/crypto/rotation.py:1047-1069 | envelopes are sealed to the current peer key alone, and from the ack to the commit to it and the new one |
| RotationTold.TriedIff | src/muse_agent_social/cli.py:2861-2917 | unsealing tries the current epoch's own key and the newest one below it, or else the two newest |
| RotationTold.RotatingBegins | src/muse_agent_social/crypto/rotation.py:496-649 | from rest, the prepare goes out for the next epoch and an ack within a day is taken: the new private key is held and the row acknowledged |
| RotationTold.AckingTakes | src/muse_agent_social/crypto/rotation.py:887-1069 | from rest, a timely prepare that continues the peer's key is acknowledged, and from then on both keys are wrapped to |
| RotationTold.RotatingEnds | src/muse_agent_social/crypto/rotation.py:669-857 | once acknowledged, decrypted wrap, confirm and commit leave the rotating side at rest at the new epoch, its new key the newest and among those tried |
| RotationTold.AckingEnds | src/muse_agent_social/crypto/rotation.py:1093-1210 | confirm and commit leave the acking side at rest at the new epoch, sealing to the new key alone |
| RotationSweep.CompactIff | src/muse_agent_social/crypto/rotation.py:1453-1495 | compaction removes exactly finished rows 30 days after their commit other than the newest, peer keys with two newer ones, and signals parked for a day |
| RotationSweep.DiscardsOnlyDue | src/muse_agent_social/crypto/rotation.py:1569-1590 | whatever the state, a sweep discards a rotation only as a candidate that has reached its deadline; every other one under way stays as it is |
| RotationSweep.SweepSpares | src/muse_agent_social/crypto/rotation.py:1569-1590 | while no candidate has reached its deadline, every rotation under way survives a sweep, row and private key |
| RotationSweep.SweepDiscards | src/muse_agent_social/crypto/rotation.py:1406-1451 | a candidate that has reached its deadline is discarded with its private key, it alone, and no old key is deleted by that sweep |
| RotationSweep.SweepDeletes | src/muse_agent_social/crypto/rotation.py:1569-1651 | a sweep deletes no private key but that of a timed-out candidate or the prior one of a finished rotation, overdue by a day or a hundred events, whose new key is still held |
| RotationService.RotationManager.BeginRotation | src/muse_agent_social/crypto/rotation.py:496-574 | the statements do exactly what `Begin` says to the four tables, refusals included |
| RotationService.RotationManager.AckReceived | src/muse_agent_social/crypto/rotation.py:602-649 | the handler's whole new state and reply are those of `OnAck` |
| RotationService.RotationManager.NewWrapDecrypted | src/muse_agent_social/crypto/rotation.py:669-693 | marks the live row, or parks the signal for a later ack |
| RotationService.RotationManager.EventAccepted | src/muse_agent_social/crypto/rotation.py:859-885 | counts one accepted event for the committed row at `key_epoch`, if there is one |
| RotationService.RotationManager.ConfirmSent | src/muse_agent_social/crypto/rotation.py:722-750 | moves only an acknowledged row to confirmed; repeats are accepted |
| RotationService.RotationManager.CommitReceived | src/muse_agent_social/crypto/rotation.py:793-857 | promotes only a confirmed row and moves `key_epoch` with it |
| RotationService.RotationManager.FindPriorEpoch | src/muse_agent_social/crypto/rotation.py:893-908 | the loop over the labelled and the stored peer keys finds the epoch `FindPrior` names |
| RotationService.RotationManager.PrepareReceived | src/muse_agent_social/crypto/rotation.py:887-996 | the whole decision ladder: redelivery, conflict, stale, in flight, expired, taken up; with the quarantine row it leaves |
| RotationService.RotationManager.ConfirmReceived | src/muse_agent_social/crypto/rotation.py:1093-1122 | moves only an acknowledged acking row to confirmed |
| RotationService.RotationManager.CommitSent | src/muse_agent_social/crypto/rotation.py:1155-1210 | commits the confirmed acking row, moves `key_epoch` and replaces the pinned peer key |
| RotationService.RotationManager.DataEventEpoch | src/muse_agent_social/crypto/rotation.py:1213-1284 | the epoch gate: known, retryable or rejected, with first-seen and quarantine tables updated and capped |
| RotationService.RotationManager.ResolveQuarantine | src/muse_agent_social/crypto/rotation.py:1349-1404 | "mine" drops the conflict row; "theirs" discards the own candidate and re-processes the stored prepare |
| RotationService.RotationManager.Sweep | src/muse_agent_social/crypto/rotation.py:1532-1651 | reports a time-out exactly when some candidate has reached its deadline, and then has discarded that one with its key; otherwise the retirement loop goes over every committed row |
| RotationService.RotationManager.RetireOldKeys | src/muse_agent_social/crypto/rotation.py:1591-1651 | the retirement loop equals `RetireAll` over the rows in the order they were read |
| RotationService.TryUnseal | src/muse_agent_social/cli.py:2861-2917 | finds an epoch exactly when one of the two tried epochs' keys is among those the envelope is wrapped to, and then one that opens it |
| RotationGate.RejectionIsPermanent | src/muse_agent_social/crypto/rotation.py:1213-1323 | an epoch once rejected is never retryable again over any later run, however many other epochs push against the caps: rejected until the peer's own prepare reaches it, known from then on |
| RotationGate.GateCall | src/muse_agent_social/crypto/rotation.py:1213-1336 | after a call on an unknown epoch at most 1000 open first-seen rows and 50 quarantine rows remain, the newest being this call's; "rejected" exactly when it was rejected before or its surviving first sighting is more than a day old |
| RotationGate.CapHolds | src/muse_agent_social/crypto/rotation.py:1286-1308 | the cap keeps every rejected row, changes none it keeps, and drops nothing while there is room |
| RotationDesk.CapIff | src/muse_agent_social/crypto/rotation.py:1286-1308 | a sighting is dropped exactly when it is open and a thousand later open ones are kept |
| RotationDesk.GateIff | src/muse_agent_social/crypto/rotation.py:1213-1336 | the gate passes exactly the epochs some key has reached; another is held back for a day from its first sighting and then rejected, and each call leaves a quarantine row that says which |
| RotationGate.PrepareClears | src/muse_agent_social/crypto/rotation.py:1034-1045 | first-seen rows are cleared only up to an epoch the peer's keys have reached |
| RotationDesk.PrepareAnswers | src/muse_agent_social/crypto/rotation.py:887-996 | every answer to a prepare whose prior key is known, with its exact condition, in any state of the tables: acknowledged again, in conflict, stale, in flight, expired or taken up; nothing is written but on an ack |
| RotationDesk.BeginAnswers | src/muse_agent_social/crypto/rotation.py:496-574 | the refusals to begin, each with its exact condition, in any state of the tables |
| RotationDesk.PrepareTells | src/muse_agent_social/crypto/rotation.py:887-1045 | a prepare that is taken up clears exactly what waited for epochs up to its own; a conflicting one is put before the human with its own words; any other leaves both tables alone |
| RotationDesk.QuarantinedIs | src/muse_agent_social/crypto/rotation.py:1310-1336 | a quarantine row goes to the end under the next id, and exactly the oldest rows past fifty go |
| RotationDesk.OthersKept | src/muse_agent_social/crypto/rotation.py:1213-1308 | a call changes no other epoch's sighting, and drops none that was rejected |
| RotationDesk.SweepTells | src/muse_agent_social/crypto/rotation.py:1532-1568 | a sweep removes exactly the rejections received thirty days ago or earlier |
| RotationDesk.ResolveIff | src/muse_agent_social/crypto/rotation.py:1349-1404 | each answer of the human's choice with its exact condition: "mine" closes the entry alone, "theirs" gives up one's own rotation and takes the stored prepare, closing the entry exactly on an ack |
| RotationDesk.GiveUpIff | src/muse_agent_social/crypto/rotation.py:1406-1451 | giving up a rotation under way discards its row and deletes its private key; a finished one stays |
| RotationReconcile.CrashConverges | src/muse_agent_social/cli.py:3873-3955 | any number of drives of one event, each cut short anywhere and one complete, give the tables, acks and markers of one crash-free drive at the time of the first that reached the tables |
| RotationReconcile.EveryEventOnce | src/muse_agent_social/cli.py:3790-3955 | from pairing, over any deliveries, re-drives, crashes and manual acks and any own operations between them, each event changes the tables at most once and each prepare is answered by at most one ack |
| RotationEndState.ReconciliationReaches | src/muse_agent_social/cli.py:3873-3955 | over any interleaved deliveries, re-drives and crashes: the tables are those of the run that keeps the own operations and applies, once and whole, each event whose drive changed them; and a marked prepare has its ack exactly when it was taken up |
| RotationEndState.KeptReaches | src/muse_agent_social/cli.py:3790-3955 | the same run marks and answers exactly the events that were taken up |
| RotationEndState.RunWaits | src/muse_agent_social/cli.py:3854-3911 | a taken-up prepare that has no ack yet is unmarked and its rotation still waits in the acknowledged phase, so a re-drive answers it |
| RotationReconcile.ManualIgnoresMarker | src/muse_agent_social/cli.py:4426-4449 | the manual ack neither reads the processed marker nor sets it |
| RotationReconcile.HookTwice | src/muse_agent_social/crypto/rotation.py:887-996 | a second application of any rotation event leaves the tables alone and gives an ack again exactly when the first did |
| RotationRetention.RetiredIff | src/muse_agent_social/crypto/rotation.py:1591-1651 | a committed row is retired by an ascending scan, row and prior key both gone, exactly when a day or a hundred events have passed and its new key is still held |
| RotationRetention.StrandedForever | src/muse_agent_social/crypto/rotation.py:1591-1651 | an old private key whose only rotation has lost its new key is never deleted by any later run |
| RotationRetention.OvertakenStrands | src/muse_agent_social/crypto/rotation.py:1591-1651 | when the newer of two rotations falls due before the older one, retiring it strands the oldest key |
| RotationRetention.OldKeyKeptForever | src/muse_agent_social/crypto/rotation.py:1591-1651 | a concrete run reaching that state: two rotations one hour apart and a hundred events |
| PairRuns.PairAlwaysWhole | src/muse_agent_social/_keyfiles.py:257-380 | over any run of publishes and recoveries, each stopped after any of its file operations by a kill or by a power loss that keeps any subset of the unsynced directory operations: whenever the system is up both files are from the same publish, whatever a further power loss keeps |
| PairRuns.NeverUndone | src/muse_agent_social/_keyfiles.py:257-342 | the published pair is that of the last committing publish; one that returned has committed, so it is never undone |
| PairRuns.RecoveryIdempotent | src/muse_agent_social/_keyfiles.py:345-380 | after a completed recovery another one makes no file operation |
| PairRuns.KilledInWindowTears | src/muse_agent_social/_keyfiles.py:306-327 | the one stop those theorems exclude: killed between the journal's rename and its sync, then recovered, then a power loss, leaves one new and one old file |
| PairPublish.AtJournal | src/muse_agent_social/_keyfiles.py:306-327 | with the journal renamed but not synced a power loss leaves either the old pair or a pending new one; one call later only the latter |
| PairPublish.BeforeJournal | src/muse_agent_social/_keyfiles.py:292-322 | a publish stopped anywhere before that leaves the old pair |
| PairPublish.FinishPrefix | src/muse_agent_social/_keyfiles.py:327-333 | any prefix of the finishing steps keeps the new pair pending or in place |
| PairDisk.SyncOutcome | src/muse_agent_social/_keyfiles.py:218-225 | syncing a directory only rules outcomes out, and pins its entries to what the process sees |
| PairFiles.FileSystem.AtomicWritePair | src/muse_agent_social/_keyfiles.py:257-342 | issues exactly the sequence of file operations the crash theorems are about, cut off after any of them |
| PairFiles.FileSystem.RecoverPendingPair | src/muse_agent_social/_keyfiles.py:345-380 | redrives exactly the renames, directory syncs and the removal that the journal found on disk calls for, or nothing |
| SchedulerApprovals.ApprovalPaysOnce | src/muse_agent_social/scheduler.py:556-746 | over every run of sends, schedules, cancels and `run_due` calls, killed anywhere, on either transport: an approval can be brought to pay for two different events, with no further such step, exactly when some step of the run expired or dead-lettered, within the approval's lifetime, a row whose upload had survived a rollback; otherwise it is spent on the one event sent under it |
| SchedulerApprovals.QueuedPaysOnce | src/muse_agent_social/scheduler.py:617-746 | when no upload outlives its transaction, no event is uploaded twice, no two uploads carry the same approval, and each belongs to a released row whose approval is spent |
| SchedulerApprovals.LeakedUploadPaysTwice | src/muse_agent_social/cli.py:1886-1908 | for every gated response, a run in which the local upload survives a kill or a failed transaction, the row expires, and the same approval pays for a second event |
| SchedulerApprovals.GaveBackIff | src/muse_agent_social/scheduler.py:807-854 | whether a `run_due` gives back the approval of an uploaded row can be read off the tables before the call |
| SchedulerApprovals.UploadsArePaid | src/muse_agent_social/cli.py:1851-1913 | over every run, each upload is of a row of the log, not before its time and not from its expiry on (the stated one, or else a day later), and a row sent under an approval is the very response that the approval's record names: relationship, request or poll, answer and decision |
| SchedulerTold.SentIff | src/muse_agent_social/model/events.py:301-345 | the exact answer to every send: with an approval it goes through exactly when that record is live, unspent and made for this relationship, subject, answer and decision; each refusal has its own condition and writes nothing |
| SchedulerTold.SentWrites | src/muse_agent_social/model/events.py:346-463 | what a send writes: one scheduled row, due as stated or now, one log entry, and the time on the approval's record |
| SchedulerTold.ScheduleIff | src/muse_agent_social/scheduler.py:347-436 | the exact answers to scheduling: at most seven days ahead, an expiry after the delivery time, one row per id; it takes no approval |
| SchedulerTold.CancelIff | src/muse_agent_social/scheduler.py:474-509 | a scheduled row becomes canceled and nothing else changes; each other answer has its exact condition |
| SchedulerTold.ReleaseIff | src/muse_agent_social/scheduler.py:617-703 | the exact condition of every status of one row: expiry by the stated time or a day after delivery, due, gated, failed, killed |
| SchedulerTold.ReleaseWrites | src/muse_agent_social/scheduler.py:617-746 | the row of each status; the third failure is the last |
| SchedulerTold.ReleaseUploads | src/muse_agent_social/cli.py:1851-1913 | a release uploads once, stamped now, unless the object is known as sent; a failure or a kill may leave an upload behind, and marks nothing as sent |
| SchedulerTold.ScanTold | src/muse_agent_social/scheduler.py:821-827 | a run goes over exactly the scheduled rows that failed less than three times, by delivery time and then id |
| SchedulerTold.ReleaseGivesBack | src/muse_agent_social/scheduler.py:556-614 | handling a row gives its approval back exactly when the row expires or fails for the third time while the spent approval lives, and changes no other record |
| SchedulerRuns.ApplyKeepsValid | src/muse_agent_social/scheduler.py:347-854 | each operation keeps the invariant: an approval is charged by at most one scheduled, released or canceled row, and only while it is consumed; scheduled means under three failures, dead means three; `sent_objects` names exactly the known released rows |
| SchedulerRuns.RunDueIsPerRow | src/muse_agent_social/scheduler.py:807-854 | every row handled before the process ends is left as if processed alone, whatever other rows' releases raise; all other rows are untouched |
| SchedulerRuns.TerminalForever | src/muse_agent_social/scheduler.py:617-746 | released, canceled, expired and dead rows never change again |
| SchedulerRuns.NothingOverdue | src/muse_agent_social/scheduler.py:341-344 | after a `run_due` that was not killed no scheduled row is past its effective expiry, and a due one was held back by its gate or failed under three times |
| SchedulerRuns.GivenBackIff | src/muse_agent_social/scheduler.py:556-614 | `run_due` gives back exactly the approvals of handled rows that it expires or dead-letters within the approval's lifetime, uploaded or not, and changes no other |
| SchedulerService.Scheduler.RunDue | src/muse_agent_social/scheduler.py:749-854 | the loop, killed anywhere or not, ends in the tables of the row-wise function, and its summary names exactly the rows that changed state, failed or were held back, and how late each released one was |
| SchedulerService.Scheduler.ReleaseOneRow | src/muse_agent_social/scheduler.py:617-703 | claim, marker and queue entry are one step: a gate, an exception or a kill leaves the row scheduled, while an object the local transport already uploaded stays |
| SchedulerService.Scheduler.RecordReleaseFailure | src/muse_agent_social/scheduler.py:706-746 | the third failure dead-letters the row and gives its approval back in the same step |
| SchedulerService.Scheduler.ConsumeApproval | src/muse_agent_social/model/approvals.py:148-193 | succeeds exactly on a live, unconsumed record whose bindings match every one given |
| SchedulerService.Scheduler.PersistOutgoing | src/muse_agent_social/model/events.py:276-463 | goes through exactly for an unused id and, with an approval, a live unspent record made for exactly this response; approval claim, event and outbox row appear together or not at all |
| SchedulerService.Scheduler.CancelSend | src/muse_agent_social/scheduler.py:474-509 | a scheduled row becomes canceled, no other row changes, and its approval stays spent |
| EventRuns.LogRefinement | src/muse_agent_social/cli.py:3444-3775 | whatever an honest sender sent, delivered in any order and multiplicity with any crashes: the receiver's log is exactly the set of admitted events as sent, no delivery is called a fork, conflict or nonce reuse, `last_seq` is the greatest stored number, and the receiver's invariant holds |
| EventRuns.HonestDelivery | src/muse_agent_social/cli.py:3488-3715 | one delivery of an honest event is stored exactly when it already was or is within the age window, the quota and the gap cap |
| EventRuns.SendAllNumbers | src/muse_agent_social/model/events.py:346-424 | over any drafts, refused ones included, the sender's log is numbered 1..n without gaps and its nonces differ |
| EventRuns.CrashConvergence | src/muse_agent_social/cli.py:3615-3755 | delivering one event any number of times, each cut short at any transaction boundary and the last complete, ends in the log, replay, projection and receipt state of one crash-free delivery |
| EventRuns.RunKeepsValid | src/muse_agent_social/cli.py:3197-3251 | a queue row exists exactly while its event is stored but neither projected nor quarantined, and each event has at most one receipt |
| EventForgery.NoForgery | src/muse_agent_social/cli.py:3615-3715 | whatever anybody sends, in any order, with guard rows expiring and deliveries cut short: two stored events with one sender and number, or with one nonce, are the same event |
| EventForgery.CollisionChangesNothing | src/muse_agent_social/cli.py:3488-3715 | over such runs, an envelope that repeats the id, number or nonce of a stored event without being that event changes no table and is not called accepted |
| EventForgery.AnswersIff | src/muse_agent_social/cli.py:3536-3715 | the exact condition of being stored, and of each of the answers nonce reuse, sequence fork and integrity conflict |
| EventForgery.SameIdAnswer | src/muse_agent_social/cli.py:3474-3510 | a stored id with other bytes is a conflict whatever else holds; the same bytes are accepted without storing or answering again |
| EventForgery.GuardIff | src/muse_agent_social/cli.py:3536-3563 | a guarded nonce accepts the very envelope of its row and calls any other one reuse |
| EventForgery.BoundsAnswers | src/muse_agent_social/cli.py:3511-3614 | the exact condition of each other refusal: no key, the gate, five minutes ahead, seven days back, 10000 events a day, 100000 past the greatest stored number |
| EventForgery.ReceiptsExactly | src/muse_agent_social/cli.py:3700-3712 | over such runs, each stored event has a receipt exactly when policy permitted one at the delivery that stored it and it is no receipt itself |
| EventForgery.HistoryHolds | src/muse_agent_social/cli.py:3716-3755 | over such runs, every projection in the history succeeded on what came before it, every event quarantined by projection failed on some part of it, and every stored event is in one of the three places |
| EventForgery.ProjectionDecides | src/muse_agent_social/cli.py:3716-3755 | a completed delivery hands a stored event over at most once, and to the history exactly when the projection takes it; no queue row is left |
| EventForgery.CutShort | src/muse_agent_social/cli.py:3615-3755 | cut short before its commit a delivery changes nothing; cut short after it what was stored waits in the queue |
| EventForgery.PersistCarries | src/muse_agent_social/model/events.py:346-424 | a sent event carries what it was asked to carry under a number above all stored ones; an insert is refused exactly for a stored id or nonce |
| EventService.Receiver.ReceiveObject | src/muse_agent_social/cli.py:3444-3775 | the pipeline, stopped at any transaction boundary, leaves exactly the tables and outcome of `Receive`; stored events never collide, and a colliding envelope stores nothing |
| EventService.Receiver.Check | src/muse_agent_social/cli.py:3488-3652 | the refusals, in the source's order; an envelope let through shares neither number nor nonce with a stored event |
| EventService.Receiver.ReceiveCommit | src/muse_agent_social/cli.py:3615-3715 | one transaction writes event, counter, replay guard, queue row and receipt together |
| EventService.Receiver.RedrainProjection | src/muse_agent_social/cli.py:3197-3251 | projects or quarantines a queued event and removes its queue row; without a row it changes nothing |
| EventService.SendLog.AssignAndPersist | src/muse_agent_social/model/events.py:466-503 | a persisted event gets the next number; a refused one changes nothing |
| CanonicalInverse.RoundTrip | src/muse_agent_social/canonical.py:68-147 | a parser of the output grammar reads back the value with its keys sorted, and leaves what follows untouched when that does not continue a number |
| CanonicalOrder.SortedRoundTrip | src/muse_agent_social/canonical.py:89-136 | the bytes say the same value, with the keys of every dictionary at every depth strictly ascending character by character, and nothing of what follows them |
| CanonicalOrder.LessIff | src/muse_agent_social/canonical.py:116-118 | one key sorts before another exactly when it is a proper prefix or smaller at the first difference |
| CanonicalOrder.EscapeTable | src/muse_agent_social/canonical.py:68-86 | two-character escapes for exactly seven characters, six-character lowercase ones for the other controls and U+007F, none for the rest |
| CanonicalOrder.Utf8Layout | src/muse_agent_social/canonical.py:68-86 | every other character is the shortest UTF-8 sequence for it, byte by byte |
| CanonicalOrder.DecimalPlain | src/muse_agent_social/canonical.py:89-105 | an integer is its decimal numeral, no leading zeros, a sign only when negative |
| CanonicalInverse.Injective | src/muse_agent_social/canonical.py:89-147 | equal bytes come from the same canonical value, even inside a longer stream |
| CanonicalInverse.EqualBytesIff | src/muse_agent_social/canonical.py:89-147 | two profile values have equal bytes exactly when they are equal as dictionaries, lists and scalars, whatever the insertion order of keys |
| Canonical.NoErrorIff | src/muse_agent_social/canonical.py:89-136 | the encoder raises nothing exactly on the profile: integers in range, no lone surrogate, ASCII keys, each once |
| CanonicalErrors.ErrorLeads | src/muse_agent_social/canonical.py:89-136 | the path of the error leads to a node that is at fault in just the way the code says |
| CanonicalErrors.ErrorIsFirst | src/muse_agent_social/canonical.py:89-136 | no faulty node lies before it, containers before their contents, dictionaries in key order and lists in index order |
| CanonicalWriter.EncodeString | src/muse_agent_social/canonical.py:68-86 | fails exactly on a lone surrogate, else returns the escaped text |
| CanonicalWriter.EncodeInto | src/muse_agent_social/canonical.py:89-136 | appends exactly the encoding, whose keys ascend, or reports the first error, at the least faulty path |
| CanonicalWriter.RejectDuplicateKeys | src/muse_agent_social/canonical.py:150-156 | returns the pairs exactly when no key repeats |
| YamlExact.RoundTripIff | src/muse_agent_social/config.py:162-381 | for every supported document with distinct keys, the dump parses back to the same document exactly when no container is empty, no key has a colon, no text has a line break other than newline and carriage return, and no value after a quoted key ending in a backslash shows the comment scan a comment |
| YamlExact.ValueUncutIff | src/muse_agent_social/config.py:238-254 | that last condition read off the value: unquoted values are safe, a quoted text exactly when its escaped form has no comment for a scan that starts after a closed quote |
| YamlCount.BackMeansUncut | src/muse_agent_social/config.py:238-381 | a document that comes back has lost no number sign, so no emitted line was cut by the comment scan |
| YamlRoundTrip.RoundTrip | src/muse_agent_social/config.py:162-381 | the positive half, from characters to document |
| YamlRoundTrip.BlockParses | src/muse_agent_social/config.py:316-381 | the indentation parser consumes exactly the lines emitted for each subtree and returns that subtree |
| YamlExact.LoadLegible | src/muse_agent_social/config.py:238-381 | whatever text it reads, the parser returns no key with a colon and no odd line break |
| YamlExact.OpenKeyLosesText | src/muse_agent_social/config.py:238-254 | each quoted key ending in a backslash has a document, faithful otherwise, whose value comes back truncated |
| YamlScalars.ScalarBack | src/muse_agent_social/config.py:162-194 | every printed scalar parses back to itself, with its type |
| YamlTold.ReadIff | src/muse_agent_social/config.py:283-295 | which trimmed tokens are null, true, false, numbers and quoted texts; every other one is its own text |
| YamlTold.PlainIff | src/muse_agent_social/config.py:162-184 | a text is written without quotes exactly when it is trimmed, not empty, no number, word or tilde, starts with no dash or question mark and holds no mark |
| YamlTold.SingleQuotedRead | src/muse_agent_social/config.py:257-295 | any text between single quotes, its apostrophes doubled, is read as that text |
| YamlTold.CommentIs | src/muse_agent_social/config.py:238-254 | outside quotes a comment starts at the first number sign at the start or after a blank or tab, and only there |
| YamlTold.SplitIs | src/muse_agent_social/config.py:298-309 | lines end at each of the ten line breaks, a carriage return and newline counting as one |
| YamlTold.StripIs | src/muse_agent_social/config.py:283-381 | stripping takes exactly the white space at both ends |
| YamlTold.SingleQuotesShield | src/muse_agent_social/config.py:238-254 | between single quotes nothing is a comment |
| YamlTold.EscapesRead | src/muse_agent_social/config.py:257-280 | which character each escape between double quotes stands for |
| YamlTold.LineForms | src/muse_agent_social/config.py:197-235 | the lines of one entry and one item, scalar or nested, and of empty containers |
| YamlTold.PutIs | src/muse_agent_social/config.py:326-355 | a repeated key keeps its first place and takes the last value; a new one goes to the end |
| YamlTold.LoneLines | src/muse_agent_social/config.py:298-381 | no line at all is an empty mapping; a key or dash with nothing after it is null |
| YamlTold.LeftOverRefused | src/muse_agent_social/config.py:298-381 | a line that is neither key nor dash is refused, and so is a line that the first block leaves over |
| YamlTold.BlanksDropped | src/muse_agent_social/config.py:298-309 | blank and comment lines do not count |
| YamlWriter.EmitInto | src/muse_agent_social/config.py:203-235 | appends exactly the lines of the document to the shared list |
| YamlWriter.StripCommentOf | src/muse_agent_social/config.py:238-254 | the scan with its quote flag is the recursive comment rule |
| YamlWriter.ParseMappingAt | src/muse_agent_social/config.py:326-355 | the loop over positions returns the mapping and the position after it, or an error, as the recursive parser does |
| YamlWriter.ParseYaml | src/muse_agent_social/config.py:298-309 | the whole reader: cleaned lines, one block, nothing left over |
| WatcherRuns.NothingLost | src/muse_agent_social/watcher.py:202-441 | over any run of uploads and cycles, with crashes (also in mid-consume), caps, spent budgets and mid-cycle uploads, an uploaded object is still waiting unchanged or was consumed unchanged after an outcome that ends it |
| WatcherOutcomes.AnswerDecides | src/muse_agent_social/watcher.py:224-275 | an object within the size limit that is answered "retry" or whose visit fails stays unchanged; what leaves is kept whole, as too large exactly over the limit, as accepted exactly for that answer, as quarantined exactly for that one |
| WatcherOutcomes.WholeListing | src/muse_agent_social/transports/local.py:102-168 | without crash, spent budget or failing visit, a cycle on fresh work takes in its whole listing when that is at most 5000 objects and 256 MiB: what is left is exactly the objects answered "retry" and the late uploads, and the checkpoint moves exactly when none was; a longer listing is cut |
| WatcherOutcomes.CycleTold | src/muse_agent_social/watcher.py:202-441 | every cycle on fresh work, by the first visit that meets a cap, the spent budget, a failing answer or a crash: what is left, how it exits and what the state file keeps |
| WatcherOutcomes.KnownHead | src/muse_agent_social/watcher.py:349-360 | a cycle that finds the checkpointed head hands nothing over, and reports no work exactly when nothing was pending |
| WatcherOutcomes.SameMarkIff | src/muse_agent_social/transports/local.py:88-97 | two directories have one head exactly when they hold the same names with the same sizes |
| WatcherRuns.RetryStays | src/muse_agent_social/watcher.py:224-275 | an object that its answer does not end stays; what a cycle consumes it consumes, unchanged, with the outcome that ended it |
| WatcherRuns.AdvanceMeansAllDone | src/muse_agent_social/watcher.py:404-431 | capped, over-budget, failed and crashed cycles leave the checkpoint alone; one that advances it past fresh work has consumed every listed object |
| WatcherRuns.IdleMeansEmpty | src/muse_agent_social/watcher.py:349-360 | when no upload lands inside a cycle, a cycle that finds no work means nothing is waiting |
| WatcherRuns.LateUploadIff | src/muse_agent_social/watcher.py:395-431 | after a cycle that advances the checkpoint, the next reports no work while objects wait exactly when one landed between the listing and the closing head |
| WatcherService.Watcher.ReceiveStream | src/muse_agent_social/transports/local.py:102-168 | the streaming loop with its caps, budget and outcomes ends as the recursive scan does |
| WatcherService.Watcher.RunCycle | src/muse_agent_social/watcher.py:333-441 | one cycle past the throttle leaves the directories, state file and exit of `RunOnce` |
| WatcherService.LocalTransport.ConsumeObject | src/muse_agent_social/transports/local.py:206-213 | moves the object to the consumed directory; a second call changes nothing |

## Left out

How the model differs from the source:

- Times are whole seconds as integers, and keys, fingerprints and digests are abstract values: two are equal only when what they were made from is.
- Real cryptography, key files on disk and the `state` column of `key_epochs` are not modelled; sealing is "wrapped to this set of keys".
- One relationship at a time; tables are keyed without the relationship id.
- In the two-party theorems a commit whose hook fails when it is received, and envelopes sealed after it, are outside decryptability until the hook is re-driven.
- The two-party theorems exclude the human resolution "theirs", which may discard an acknowledged or confirmed rotation of one's own; the one-side theorems include it, except `RotationReconcile.EveryEventOnce` and `RotationGate.RejectionIsPermanent`.
- `RotationReconcile.EveryEventOnce` and `RotationEndState.ReconciliationReaches` take event ids and new keys to be drawn once, and both sides' prepares to carry their event ids; `RotationReconcile.CrashConverges` takes the clock not to run backwards between drives.
- `RotationEndState.ReconciliationReaches` takes the peer to confirm a rotation only after its prepare was answered, which `RotationHandshake.ConfirmMeansAnswered` proves of a peer that runs this code, and leaves out the manual `rotate --ack`, which neither reads nor sets the processed marker; `RotationReconcile.EveryEventOnce` includes it.
- Sweeps run in one process: a sweep may stop between its transactions, but another process's handlers do not come between them.
- Nothing is claimed about progress after a lost acknowledgement, or about the epoch gate after a candidate is discarded.
- SQL scans without an `ORDER BY` are loops in an arbitrary order, handed back as a ghost result; `RotationRetention.RetiredIff` is for the ascending order, in which SQLite reads that table's primary key.
- `run_due` is sequential: one caller at a time, as the restoration of an approval does not re-check its own update.
- `apply_event` is an abstract deterministic function of the events applied before it.
- The ingress quota counts received events, and a receiver's tables hold only the peer's events; its own receipts are listed beside them.
- Sealing a receipt never fails in the receive model; `RotationInvariant.OneSideSafety` is why it can be taken for granted.
- Pair publish: temporary names are never used twice; errors returned by file operations (as opposed to stops between them) and file modes are not modelled.
- Uploads carry names that were not used before; `WatcherService.LocalTransport.UploadObject` itself overwrites.
- The listing's digest and the closing one are taken as injective on names and sizes; the listing and the digest taken just before it see the same directory.
- YAML text is a sequence of Unicode scalars; digits and case folding are those of ASCII; a document that is neither a mapping nor a sequence at the top, and file access, are not modelled.
- Canonical values have ASCII keys or are refused, as in the source; floats are one refused value.

What the repository does that is not modelled:

- The invite ledger (`model/invites.py`), migration from v0.1 (`migrate.py`) and the text form of timestamps (`policy/limits.py`).
- Identity-key rotation on receive, attachments, surfacing policy, relationship teardown and retention sweeps.
- The GitHub transport, the poll throttle and retry backoff of the watcher, maintenance callbacks.
- Argument parsing, prompts, JSON Schema validation, database creation and column migrations.
