# backchannel: a verified model

backchannel is a chat hub: one process holds accounts, channels, messages and files, and clients hold
one connection each. A single lock makes every frame handler, command, timer tick and upload phase an
atomic step. This project models those steps in Dafny and proves what holds over all their runs.

Each part has the same shape. A module of datatypes and functions says what one step does to the state
and which steps are possible (`MessageLog`, `Delivery`, `Files`, `Device`, `KeyEpochs`, `Access`,
`TokenBucket`, `HttpHead`). A class runs the source's own loops and updates over mutable fields, and
each of its methods is proved to make exactly that step (`MessageStore`, `SessionHub`, `FileStore`,
`Client`, `AccessHub`, `LimiterMap`, `HeadReader`). The proof modules then show what every run keeps, and
the methods a caller uses require and ensure that invariant as `Valid`.

- **Messages and the log.** `MessageLog`, `RestartProof`, `CompactionProof`, `DeletionProof`,
  `MessageStoreClass`. Memory and the append-only log drift apart through trimming and late compaction; a
  restart is invisible all the same, and what was deleted stays deleted.
- **Subscriptions.** `Delivery`, `DeliveryProof`, `StreamProof`, `PresenceProof`, `AnnounceProof`,
  `SessionHubClass`. Replay, fan-out, resumption and presence counters.
- **Files.** `Files`, `AccountingProof`, `ReferenceProof`, `ReferenceRuns`, `LostFile`, `UploadProof`, `QuotaProof`,
  `QuotaReach`, `FileStoreClass`. Reference counts, deduplication, accounting and the two-phase
  upload.
- **End-to-end keys.** `Crypto`, `Device`, `HeldBack`, `KeyEpochs`, `KeyProof`, `KeyTraffic`, `KeyRuns`,
  `KeyRemoval`, `ClientClass`. The hub's epoch counters, every device's keys and the frames between them.
- **Access.** `Perms`, `Access`, `CommandProof`, `MembershipProof`, `BanProof`, `InviteProof`, `GrantProof`,
  `ServerOwnerProof`, `VisibilityProof`, `SightLost`, `HiddenProof`, `AccessClass`. Ranks, invites, bans,
  server roles, and what a hidden channel gives away (nothing).
- **Limits and text.** `TokenBucket`, `LimiterClass`, `Text`, `ExpireText`, `HttpHead`, `HttpProof`,
  `HttpRules`, `RequestProof`, `HttpClass`.

Time is a parameter of each step and does not run backwards. New message ids are counted; file ids,
invite codes, session ids and keys are fresh. Go's map iteration is an arbitrary order: a parameter of the
step, or an arbitrary choice in the class. Encryption is ideal: a box opens under exactly the key and
associated data that made it.

Where the code and its documentation disagree, the model follows the code:

- PROTOCOL.md (line 9) promises monotonic message ids. Compaction can drop the highest id, so a restart can
  hand it out again: `RestartReusesId`, `RestartCounterExact` for exactly when, and `RestartResumeExact` for
  exactly when a resuming client then misses a message.
- A storage quota can be overshot by uploads that overlap, since only committed bytes are charged: it holds
  exactly when max_uploads is 1 (`QuotaKeptExactly`), `QuotaBound` bounds the excess and `BoundIsReached`
  reaches that bound under all settings.
- A restart can bring back an expired message when the expiry was raised before the next compaction:
  `RaisedExpiryResurrects`, and `RestartExact` for exactly when. If it was a file message its file is gone:
  `RestartLosesFile`, and `RestartBackedExact` for exactly when.
- ENCRYPTION.md (sections 2 and 5) says moderators may rotate a key; perms.go (line 62) asks for channel
  admin. The step `DoRotate` of `KeyEpochs` follows the code; no separate result is stated.
- A client below version 2 is subscribed to the default channel unasked, whatever its account sees:
  `GreetedVisible`, and `OldClientBlind` for a run. Moving the default channel and demoting a server admin
  leave such subscriptions behind too: `MovedDefaultBlind`, `DemotedBlind`.
- Forgetting idle limiter keys can grant more than remembering them, exactly when an hour does not fill the
  bucket: `HourIsEnough`. `exhausted` errs exactly when a burst is below one token: `ExhaustedForetells`.
- The comment on `fmtExpire` says it renders seconds the way `parseExpire` reads them; that holds for whole
  minutes only: `ExpireRoundTrip`.

`dafny verify dfyconfig.toml` checks the whole project.

## Model

| member | source | states |
|---|---|---|
| RestartProof.RestartTransparent | code/store.go:354-399 | after any run of posts, deletions, expiry sweeps, compactions, channel deletions and restarts, loading the log and sweeping leaves a channel with exactly the last `keep` entries memory held, tombstones included, less those expired by then, provided its expiry was never raised or turned off; the reloaded counter is at least every retained id |
| RestartProof.RestartExact | code/hub.go:169-172 | for every reachable state, a restart rebuilds what memory held if and only if everything memory had dropped from the last `keep` logged entries is past its expiry |
| RestartProof.RunValid | code/store.go:401-436 | in every state of every run memory is a suffix of the log's replay, and what it lacks of the last `keep` entries is stale |
| RestartProof.MergedReplays | code/store.go:410-436 | reading back a compacted log gives exactly the slices it was written from, in whatever order the map yielded them |
| RestartProof.EraseInSuffix | code/store.go:440-453 | a deletion marks the same entry in memory and in the replay of the longer log |
| RestartProof.RestartCounterExact | code/store.go:368-370 | a restart keeps the id counter if and only if the log still has a record of the newest id; it never raises it |
| RestartProof.RestartReusesId | code/store.go:410-436 | a concrete run after which a restart hands an id out twice, against the promise of monotonic ids (PROTOCOL.md line 9) |
| RestartProof.RaisedExpiryResurrects | code/limits.go:203-231 | a concrete run in which turning expiry off between a sweep and the next compaction lets a restart bring back a message that clients were told is gone |
| RestartProof.MemBounded | code/hub.go:823-827 | in every run, restarts included, no channel's slice is ever longer than `keep` plus a quarter |
| DeletionProof.DeletedForGood | code/store.go:440-453 | a deleted message never comes back: through every later run, compactions and restarts included, the channel holds nothing but a blank tombstone under its id, for as long as no restart forgets the id |
| DeletionProof.DeletedSaysNothing | code/store.go:447-449 | in every state of every run no tombstone, in memory or in what the log replays to, holds a text or a file |
| DeletionProof.EraseBlanks | code/cmds.go:983-992 | a deletion blanks exactly the undeleted message with that id, logs exactly one record of it, and leaves every other entry and channel alone |
| DeletionProof.NothingToErase | code/store.go:440-453 | there is something to delete if and only if an undeleted message with that id is retained |
| CompactionProof.PostExact | code/hub.go:820-828 | a post is stored and logged as it was said, under the next id; nothing is cut until a slice is a quarter over `keep`, and then it is cut back to `keep` |
| CompactionProof.JanitorCompacts | code/limits.go:222-231 | at most a thousand expired entries wait for the log to be rewritten, and none once ten minutes have passed since the last time; nothing removed means nothing rewritten |
| CompactionProof.LoadBoundsLog | code/store.go:386-399 | after start-up the log is at most half as long again as what is kept, and 200 records more |
| CompactionProof.DeleteForgets | code/cmds.go:994-1019 | a deleted channel is in memory no more and, once rewritten, in the log no more; the others are as they were |
| MessageLog.IncreasingUnique | code/store.go:411-415 | two id-sorted collections of the same entries are equal, so map order does not show in the rewritten log |
| MessageLog.SortIncreases | code/store.go:415 | sorting by distinct ids yields rising ids |
| MessageStoreClass.MessageStore.Post | code/hub.go:820-828 | the new message is the last of its slice, its id is beyond every id in the log, the slice stays within `keep` plus a quarter, and memory stays a suffix of the log's replay |
| MessageStoreClass.MessageStore.TombstoneInMem | code/store.go:440-453 | searches from the newest entry and turns the one undeleted message with that id, in place, into a tombstone that keeps who, when and where but no text and no file; every other entry is untouched |
| MessageStoreClass.MessageStore.Tombstone | code/cmds.go:983-992 | a deletion takes text and file out of memory and appends its `del` record, keeping memory a suffix of the log's replay; nothing happens when there is nothing to delete |
| MessageStoreClass.MessageStore.CompactLog | code/store.go:410-436 | the log becomes the id-sorted contents of memory, or stays as it is when the temporary file cannot be made |
| MessageStoreClass.MessageStore.ExpireMessages | code/limits.go:203-231 | drops each channel's stale prefix, counts what went, and compacts when due |
| MessageStoreClass.MessageStore.Sweep | code/limits.go:271-308 | expires, and compacts when anything was removed since the last compaction |
| MessageStoreClass.MessageStore.DeleteChannel | code/cmds.go:994-1019 | forgets the slice and the channel and compacts |
| MessageStoreClass.MessageStore.ReadLog | code/store.go:358-382 | one pass over the log builds every live channel's replay and the highest id |
| MessageStoreClass.MessageStore.LoadMessages | code/store.go:354-399 | replays, cuts to `keep`, and compacts a log grown well past what is kept |
| MessageStoreClass.MessageStore.Restart | code/hub.go:169-172 | the loops of load and sweep leave every channel whose expiry was not raised with what it had, cut to `keep`, less what has expired |
| StreamProof.ExactDelivery | code/hub.go:756-785 | from a `sub` until the session leaves, the content frames it is sent on the channel are the last 400 or fewer retained unexpired entries beyond `since`, followed by every later post with its sender, text, file and time as posted, with strictly rising ids |
| StreamProof.OrderFromStart | code/hub.go:820-833 | every state of every run keeps each slice in order of id and time and within the counter: the condition under which the delivery theorems are stated |
| StreamProof.ResumeLosesNothing | code/hub.go:837-854 | a session that resumes with the last id it got is replayed exactly what was posted meanwhile, in order and deleted ones as tombstones, if and only if that was at most 400 entries and none of them was trimmed or has expired, whatever became of the entries it already had; asked is only that the expiry was not raised since its first `sub`, or that the newest entry then was within `since` or unexpired |
| StreamProof.ResumeReplaysTheGap | code/hub.go:756-774 | the same for one subscriber and any run, from any state whose entries are all within `last` or expired by the time of the resumption |
| StreamProof.RestartResumeExact | code/store.go:368-370 | a client that has everything up to `last` and resumes after a restart of the hub is replayed the first message posted since if and only if the log still had a record of `last` or of a newer id |
| DeliveryProof.WindowExact | code/hub.go:757-774 | binary search, cap and expiry filter together replay exactly the last 400 or fewer of the entries beyond `since` that are not expired |
| DeliveryProof.StepStream | code/hub.go:304-310 | each step sends a subscribed session exactly what a post to the channel says, under the next id, and no other content of it |
| DeliveryProof.PostReaches | code/hub.go:820-833 | a post reaches every subscriber as its next frame, and the end of its channel's slice, with exactly the sender, text, file id, kind and time it was made with; nobody else hears of it |
| AnnounceProof.SubTold | code/hub.go:756-785 | a subscriber gets the replay, then how far it reaches, then, exactly when no other session of the account was there, the news of its joining, which all others get too |
| AnnounceProof.UnsubTold | code/hub.go:791-807 | a departure is announced to everybody still there exactly when the account's last session leaves |
| AnnounceProof.DetachedTold | code/hub.go:810-817 | every session of a removed account is told why, in any order, and hears nothing else |
| AnnounceProof.ExpireTold | code/limits.go:205-221 | subscribers are told the ids of exactly the entries that expired |
| AnnounceProof.CloseGone | code/hub.go:463-470 | a closed session is gone, and the others hear of nothing but its departures |
| PresenceProof.PresenceFromStart | code/hub.go:776-817 | from the first start on, every presence counter is the number of that user's live sessions subscribed there, and an entry exists exactly when there is one |
| PresenceProof.OnlineInExact | code/hub.go:331-347 | `onlineIn` lists exactly the users with a subscribed session |
| PresenceProof.PresenceInRuns | code/hub.go:463-470 | re-subscription, unsubscription, kick, leave, channel deletion and disconnect keep the counters exact and without zero entries |
| SessionHubClass.SessionHub.Search | code/hub.go:759 | the binary search finds the first entry beyond `since` |
| SessionHubClass.SessionHub.Subscribe | code/hub.go:756-785 | queues the replay and the `synced` mark, counts the subscription, announces the first one |
| SessionHubClass.SessionHub.HandleSub | code/hub.go:841-854 | after `sub`, repeated or not, the session is subscribed, has been sent on top of what it had exactly the last 400 or fewer unexpired entries beyond `since`, and every counter is still exact |
| SessionHubClass.SessionHub.Unsub | code/hub.go:791-807 | the session no longer listens, every presence counter is still the number of live subscriptions, and no zero entry is left |
| SessionHubClass.SessionHub.UnsubUser | code/hub.go:810-817 | every session of the user is detached and told why, in any order, and the counters stay exact |
| SessionHubClass.SessionHub.ToChan | code/hub.go:304-310 | the frame is queued to every subscribed session and to no other |
| SessionHubClass.SessionHub.Post | code/hub.go:820-833 | the message is stored last in its channel and reaches every subscriber, and nobody else, with exactly the sender, text, file id and time it was posted with; slices stay in order and counters exact |
| SessionHubClass.SessionHub.DeleteChannel | code/cmds.go:1006-1014 | every subscriber is told and detached, the channel's presence goes away, and the other counters stay exact |
| SessionHubClass.SessionHub.Teardown | code/hub.go:463-470 | a closing session leaves every channel in turn, in any order, and the counters stay exact |
| ReferenceRuns.RetainedFilesStay | code/hub.go:983-1007 | in every run in which no restart happens while the channel's expiry has been raised since the log last agreed with memory, a file that a retained message of the channel refers to is stored |
| ReferenceRuns.CountsExact | code/hub.go:983-990 | in every run each (file, channel) count is the retained file messages plus those the trim dropped |
| ReferenceRuns.ReferredFilesStay | code/hub.go:994-1007 | in every run, no step of any kind deletes a file that a message retained afterwards refers to |
| ReferenceRuns.RestartBackedExact | code/store.go:354-399 | a restart leaves every file message of a channel its file if and only if each file message it brings back, though memory had dropped it, still has one |
| LostFile.RestartLosesFile | code/limits.go:205-231 | a concrete run in which turning expiry off between a sweep and the next compaction lets a restart bring back a file message whose file the sweep deleted |
| ReferenceRuns.PruneExact | code/cmds.go:946-960 | pruning deletes exactly the files that nothing refers to, in any order |
| ReferenceRuns.IndexedOk | code/hub.go:1071-1077 | start-up re-establishes the counts with no trimmed part |
| ReferenceProof.UnrefAllCounts | code/limits.go:213-219 | expiry takes back exactly one reference per expired file message |
| ReferenceProof.PostCounts | code/hub.go:823-827 | a post accounts for what the trim cuts off |
| AccountingProof.BooksFromStart | code/files.go:262-275 | from the first start on the total is the sum of stored sizes, each account is charged exactly what it owns, and the hash index inverts the stored hashes |
| AccountingProof.DeleteAccounted | code/hub.go:1009-1019 | a deletion refunds exactly what was charged: for accounts the clamp at zero never acts |
| AccountingProof.IndexAccounted | code/hub.go:1064-1070 | rebuilding the books from the file table gives the same account figures |
| AccountingProof.NoDuplicates | code/files.go:263-267 | no two stored files have equal content |
| AccountingProof.StoreAccounted | code/files.go:262-275 | known bytes are not stored again and charge nobody; new bytes are charged once |
| UploadProof.AdmissionExact | code/files.go:178-224 | exactly who is admitted: the account may post, the file fits the cap, the quota, the rate and the slots; and which refusal is given exactly when |
| UploadProof.UploadsWereAllowed | code/files.go:178-229 | in every run from the first start whatever is being uploaded was admitted by a step that passed every check, for that account, channel and length |
| UploadProof.FilesFromUploads | code/files.go:253-277 | between restarts a file message appears in a channel only by the commit of an upload to it |
| QuotaProof.QuotaBound | code/files.go:201-224 | every interleaving of uploads keeps an account's stored and in-flight bytes within quota + (max_uploads - 1) * min(quota, largest file) |
| QuotaProof.OneUploadKeepsQuota | code/files.go:217-224 | with one upload at a time, stored and in-flight bytes together stay within the quota in every run from a state within it |
| QuotaReach.QuotaKeptExactly | code/files.go:217-224 | for every quota and every file cap of a channel that takes files, the charge stays within the quota in every run from the first start if and only if max_uploads is 1 |
| QuotaReach.BoundIsReached | code/files.go:201-224 | for every max_uploads above 0, quota and largest file, some run from the first start is charged exactly the bound: no smaller one holds |
| QuotaReach.Overshoot | code/files.go:253-270 | with max_uploads 0, or as many as it allows, any number of overlapping uploads is charged in full on top of a nearly full quota |
| FileStoreClass.FileStore.RefFile | code/hub.go:983-990 | exactly one count goes up by one, and counts stay positive |
| FileStoreClass.FileStore.UnrefFile | code/hub.go:994-1007 | exactly one count goes down by one, an entry that reaches zero goes, and the file goes with its last reference and no other file does |
| FileStoreClass.FileStore.ExpireFiles | code/limits.go:205-219 | the reference side of an expiry sweep, in any channel order; files go only with their last reference |
| FileStoreClass.FileStore.Prune | code/cmds.go:946-960 | the loop, in any order, leaves exactly the files that something refers to, with exact counts and books |
| FileStoreClass.FileStore.Admit | code/files.go:178-224 | an admitted upload was allowed and within its rate, and fits the file cap, the quota left and the free slots; who may not post is told so first; a refused one changes nothing; counts and books stay exact |
| FileStoreClass.FileStore.Commit | code/files.go:253-277 | when the channel is still there its newest message names sender, file and time and refers to a stored file with the received content, known or new; counts and books stay exact |
| FileStoreClass.FileStore.IndexFiles | code/hub.go:1064-1077 | the loops rebuild index, figures and references in any map order: counts exact with nothing trimmed, books exact, and each account charged what it was charged before |
| Crypto.AadInjective | code/e2e.go:60-65 | the associated data of one channel and epoch is that of no other |
| Crypto.OpensWhereSealed | code/e2e.go:105-115 | a sealed text opens under its own key, channel and epoch and under no other |
| Crypto.UnwrapsWhereMeant | code/e2e.go:168-190 | a wrapped key opens for the two ends of the exchange, under its own channel and epoch only |
| KeyRuns.KeyAgreement | code/e2e_client.go:128-138 | in every run, with frames delayed, repeated, lost or put under other headers, two devices that hold a key for one channel and epoch hold the same key |
| KeyRuns.OneGenerator | code/e2e_client.go:184-206 | once an epoch has its key, nobody draws another and the key never changes |
| KeyRuns.SealedMessagesOpen | code/e2e_client.go:163-176 | every sealed message opens to its text on every holder of its epoch's key, and under no other header |
| KeyRuns.ScreensTellTheTruth | code/client.go:1263-1281 | in every run what a device shows reads as it was written, it never reports a frame unreadable, and it holds back only frames whose key it lacks |
| KeyRemoval.RemovedLearnsNothingNew | code/hub.go:922-939 | an account without rank that gets none back, and that keys reach only as the hub relays them, never holds, on any device and under any name, the key of an epoch that began after it was removed |
| KeyRemoval.RunWithin | code/hub.go:897-918 | no account ever holds, or has on its way, a key newer than the last epoch at which it had a rank |
| KeyProof.AnswerOpensForTheAsker | code/e2e_client.go:108-123 | the answer to a key request opens for the asking device and for no third one |
| KeyProof.MisdeliveryHarmless | code/e2e.go:60-65 | a wrapped key under a false header is refused or is the key of that header |
| KeyTraffic.ReshareReachesPeers | code/e2e_client.go:213-236 | every listed peer device but this one is written a share addressed to it from which it gets the key, and nothing else is written |
| KeyTraffic.RequestAnswered | code/e2e_client.go:108-123 | a key request is answered exactly when the device sees the channel as encrypted, holds the key and the asker has a device key; the answer is for the asker and brings it the key |
| KeyTraffic.InfoAsks | code/e2e_client.go:91-103 | learning about a channel makes the device ask exactly when it lacks the key and has not asked yet |
| KeyTraffic.ShareReachesAddressee | code/hub.go:922-939 | a relayed share reaches every connected device of the name and account it is addressed to and no other |
| KeyTraffic.RequestReachesSubscribers | code/hub.go:897-918 | a key request reaches every other subscriber and nobody else, with the asker's registered key |
| HeldBack.FramesConserved | code/client.go:1239-1281 | every content frame a device received is exactly once shown, reported unreadable, held back, or was held back in a channel the device left |
| HeldBack.KeyArrival | code/e2e_client.go:128-152 | an accepted key releases exactly the pending frames of its epoch, in arrival order, and the rest wait on in order |
| HeldBack.EpochGoesBack | code/e2e_client.go:193-199 | the epoch a device seals under goes back in exactly two cases: it leaves the channel, or the answer to its own rotation arrives late |
| HeldBack.UnheldExact | code/client.go:1247-1256 | from a state in which no frame waits for a key the device holds, an event leads to one in which some does if and only if the device itself makes a key that a frame was waiting for; ScreensTellTheTruth shows that this happens in no run |
| HeldBack.MessageRendered | code/client.go:1239-1281 | a message of a plain channel is shown as sent at once; one of an encrypted channel waits, last in line, exactly when its key is missing, and is otherwise opened and shown |
| HeldBack.PlainChannelsWaitForNothing | code/client.go:1247-1256 | in a channel that has never been an encrypted one nothing is ever held back |
| ClientClass.Client.OnKeyShare | code/e2e_client.go:128-152 | stores an opening key and retries what was held back; every frame is still accounted for exactly once |
| ClientClass.Client.Retry | code/e2e_client.go:142-150 | the loop over the pending frames |
| ClientClass.Client.OnMsg | code/client.go:1239-1259 | a message of a plain channel is shown at once and one of an encrypted channel waits exactly when its key is missing; the frame is accounted for once more and no other frame is |
| ClientClass.Client.InitCreatedE2EKeys | code/e2e_client.go:74-86 | the first key of each new encrypted channel |
| ClientClass.Client.ReshareToOnlinePeers | code/e2e_client.go:213-236 | every listed peer device but this one is written a share from which it gets the key, and nobody else is written to |
| ClientClass.Client.EncryptForSend | code/e2e_client.go:163-176 | nothing goes out of an encrypted channel exactly when its key is missing, and what goes out opens to the text under the key held for the epoch it names |
| ClientClass.Client.ApplyInfo | code/client.go:1132-1147 | the device's epoch never goes back and reaches the description's, and no frame is shown, lost or held back |
| MembershipProof.NeverMemberAndBanned | code/cmds.go:354-405 | in every run no account is both member and banned in a channel |
| BanProof.PermanentBanStands | code/cmds.go:375-418 | a ban without an end stands, and the account is no member, through every run in which nobody lifts it, sweeps included |
| CommandProof.BanExact | code/cmds.go:375-405 | a ban is done exactly when the actor may ban and outranks the target; it records the ban, takes the membership and detaches the sessions, and touches nothing else |
| CommandProof.UnbanExact | code/cmds.go:407-419 | an unban is done exactly when there is a ban to lift, and lifts it alone |
| CommandProof.SweepExact | code/limits.go:271-300 | the hourly sweep removes exactly the bans and codes whose date is past and the codes used up, and lifts exactly the account bans that have run out |
| CommandProof.LoginExact | code/hub.go:646-670 | an account gets in exactly when it is active or its ban has run out, which is then lifted |
| CommandProof.JoinExact | code/hub.go:699-724 | a code admits exactly while it has uses left and has not run out, into its channel with its role, unless the account is banned there; one that has run out is gone afterwards |
| CommandProof.EnrolExact | code/hub.go:541-570 | who gets a new account, with or without a code, and where it starts |
| CommandProof.ArgsInOrder | code/cmds.go:810-888 | `usermod` applies its arguments one after another up to the first refusal, and what was done by then stays |
| CommandProof.MessageAnswered | code/hub.go:856-891 | a message is let through exactly when its sender sees the channel, may write in it, is no muted member and stays within length and rate; otherwise the first of these that fails is named |
| MembershipProof.InvitesConserved | code/hub.go:699-724 | in every run, for every open limited code, uses left plus memberships created is what it began with; a code removed for whatever reason has created no more than that |
| InviteProof.RedemptionsCounted | code/cmds.go:266-279 | a step counts one redemption exactly when it uses the code and a membership appears |
| InviteProof.LastUse | code/hub.go:716-724 | redeeming a code removes it if and only if it has then created as many memberships as it was made for |
| InviteProof.UsedUpForGood | code/hub.go:699-724 | a code removed by its last use stays removed in every later run, with exactly the memberships it was made for |
| GrantProof.GrantsGoDown | code/cmds.go:467-491 | every membership or role a step brings about was given by somebody of higher rank, or by a code whose maker had a higher rank, or is the plain membership of a new account in the default channel, or comes of creating or transferring |
| GrantProof.OwnersAreMadeOrAppointed | code/cmds.go:493-513 | a channel owner arises only by create or transfer |
| GrantProof.OneOwnerKept | code/perms.go:72-77 | a command leaves a channel with exactly one owner if and only if it is not one of the listed interventions of server staff |
| GrantProof.OneOwnerInRuns | code/cmds.go:286-301 | from its creation on, a channel in which server staff does not kick, ban, transfer or change roles has exactly one owner for as long as it exists |
| ServerOwnerProof.ModAllOwner | code/cmds.go:819-882 | in any argument order and at any early return, `usermod` leaves exactly one server owner: the same, or the account the owner appointed |
| ServerOwnerProof.ExactlyOneServerOwner | code/cmds.go:822-837 | in every run there is exactly one server owner |
| ServerOwnerProof.OwnerUntouched | code/perms.go:141-146 | no command of anybody else changes the owner's role, status, password or saved sessions |
| VisibilityProof.SubscribedImpliesVisible | code/hub.go:362-373 | in every run where clients below version 2 are guests, nobody loses a server role and the default channel stays, a subscribed session's account has at least read rank |
| VisibilityProof.GreetedVisible | code/hub.go:411-417 | the automatic subscription of a client below version 2 is visible if and only if its account sees the default channel |
| VisibilityProof.DefaultMoveVisible | code/cmds.go:1095-1104 | moving the default channel breaks visibility exactly for guests subscribed elsewhere |
| VisibilityProof.DemotionVisible | code/cmds.go:829-831 | demoting a server admin breaks visibility exactly when it is subscribed where it is no member |
| SightLost.OldClientBlind | code/hub.go:411-417 | a run from the first start: an account invited to another channel logs in with a client below version 2 and listens to the default channel it does not see |
| SightLost.MovedDefaultBlind | code/cmds.go:1095-1104 | a run from the first start: a guest listens to the default channel while the owner makes another one the default |
| SightLost.DemotedBlind | code/cmds.go:822-837 | a run from the first start: a server admin listens to a channel it is no member of and becomes an ordinary account |
| HiddenProof.HiddenEqualsAbsent | code/hub.go:359-373 | in every conversation an account that cannot see a channel gets the same answers in any two states that differ in that channel only, one of them without it, whatever the others do in it and in every other channel meanwhile |
| HiddenProof.HiddenEqualsRemoved | code/hub.go:362-377 | every such conversation goes the same way in the state with the channel, its invites and its subscriptions removed |
| HiddenProof.FramesAlike | code/hub.go:837-979 | frames naming a hidden channel get the answer of an absent one, and frames naming others are answered alike |
| HiddenProof.ListsAlike | code/hub.go:742-752 | channel lists omit hidden channels |
| HiddenProof.InsideStaysInside | code/cmds.go:156-513 | whatever anybody does in a channel changes nothing outside it |
| AccessClass.AccessHub.Kick | code/cmds.go:375-405 | done means: the target ranked below the actor, is no member any more and none of its sessions listens; nobody becomes both member and banned |
| AccessClass.AccessHub.Ban | code/cmds.go:375-405 | done means: the target ranked below the actor, is banned and no member, and none of its sessions listens |
| AccessClass.AccessHub.Add | code/cmds.go:354-373 | done means: the account is a member and not banned, and if it was none before it is a plain member |
| AccessClass.AccessHub.GiveRole | code/cmds.go:467-491 | done means: the member has the role asked for, which is not owner and below the actor's rank |
| AccessClass.AccessHub.Transfer | code/cmds.go:493-513 | done means: the target owns the channel and the actor does not |
| AccessClass.AccessHub.Leave | code/cmds.go:286-301 | done means: the account is no member and none of its sessions listens |
| AccessClass.AccessHub.Delete | code/cmds.go:156-168 | done means: the channel, every invite to it and every subscription to it are gone |
| AccessClass.AccessHub.Join | code/cmds.go:266-284 | done means: the code was open, and the account is a member of its channel and not banned there; uses left and memberships created still add up |
| AccessClass.AccessHub.UserMod | code/cmds.go:810-888 | argument by argument up to the first refusal; whoever owned the server owns it still, or has appointed the target |
| AccessClass.AccessHub.Sweep | code/limits.go:271-300 | the loops drop lapsed bans, spent invites and lapsed account bans, and membership and invites stay consistent |
| AccessClass.AccessHub.SetDefaultChannel | code/cmds.go:1095-1104 | the loop leaves the flag on exactly the named channel |
| TokenBucket.SlidingWindow | code/limits.go:29-43 | between any two calls, with limits changing from call to call up to R and B, what is granted is at most B plus R times the time between, and the bucket stays within 0 and B |
| TokenBucket.EvictionInvisible | code/limits.go:62-84 | forgetting keys idle for over an hour changes no decision when each key's limits stay the same and an hour fills its bucket |
| TokenBucket.HourIsEnough | code/limits.go:74-81 | under one limit everywhere and from a new limiter on, forgetting idle keys changes no decision on any requests if and only if an hour fills the bucket |
| TokenBucket.ExhaustedForetells | code/limits.go:313-324 | `exhausted` says in every state what taking one token would do if and only if the burst is at least one |
| TokenBucket.RefusalIsFree | code/limits.go:29-43 | a refused request costs nothing: whoever asks next at the same moment is answered as if it had not been made |
| TokenBucket.OthersKept | code/limits.go:62-84 | a call changes no other key's bucket unless that key has been idle for over an hour and there are more than 4096 |
| TokenBucket.MutesExactlyWhenFlooding | code/limits.go:151-180 | a hit mutes exactly when it makes more than the limit since the last mute within five minutes |
| TokenBucket.StoredHitsAreRecent | code/limits.go:154-164 | the filtered list is always the hits since the last mute of the last five minutes |
| LimiterClass.LimiterMap.AllowRate | code/limits.go:62-84 | find or make the bucket, adopt the current limits, collect idle keys, take |
| LimiterClass.Squeeze | code/limits.go:157-163 | the in-place filter keeps exactly the recent hits in order |
| LimiterClass.NoteRateHit | code/limits.go:151-180 | the loop keeps the recent hits and mutes as the specification of the auto-mute window says |
| RequestProof.RequestRoundTrip | code/http_min.go:195-204 | the head printed for any method, path, parameters, headers and length within the limits is parsed back to the same method, path, parameter values, trimmed headers under lower-case names and length, and the body is what follows |
| HttpProof.UnescapeEscape | code/http_min.go:111-145 | unescaping undoes escaping for all byte strings, and escaped text holds no separator |
| HttpRules.UnescapeHead | code/http_min.go:111-132 | a plus is a blank, two hex digits after a percent sign are a byte, and everything else, a lone percent sign too, is itself |
| HttpRules.RefusedExact | code/http_min.go:71-98 | which request is refused and with what error: the first of line, request line, headers, length and encoding that is wrong |
| HttpRules.HeaderExact | code/http_min.go:41-69 | a header needs a colon and a name; its name is lowered, its value trimmed, and a second content length is refused |
| HttpProof.TargetRoundTrip | code/http_min.go:100-109 | a printed target splits into the same path and parameters |
| HttpProof.HeadRead | code/http_min.go:41-69 | the printed head is read back line by line, whatever follows it |
| HttpClass.EscapeText | code/http_min.go:134-145 | the escaping loop |
| HttpClass.UnescapeText | code/http_min.go:111-132 | the unescaping loop, fast path included |
| HttpClass.SplitTarget | code/http_min.go:100-109 | path and query of a target |
| HttpClass.HeadReader.NextHeaders | code/http_min.go:41-69 | the header loop with its limits and refusals |
| ExpireText.ExpireRoundTrip | code/limits.go:234-268 | what fmtExpire writes is read back as the same expiry if and only if it is a whole number of minutes |
| ExpireText.UnitExact | code/limits.go:234-256 | an expiry is a positive number of seconds, minutes, hours, days or weeks, and at least a minute; anything else is refused |

## Left out

- Sockets, TLS, discovery, the terminal, clipboard sync and slash-command parsing: input and output without a
  protocol property of their own.
- JSON encoding of frames and of state.json, which is taken to keep everything, including settings changed by
  a command that then returned early; audit records and text listings.
- The limit of the outgoing queue: queues are unbounded, so a slow session is never dropped.
- Sessions, buckets and channel views are values in maps rather than shared objects; the aliasing of Go
  pointers to them is not modelled.
- Write failures other than a temporary file that cannot be created during compaction; the adoption of files
  found on disk without metadata; import of version 1 history.
- 64-bit overflow of ids, times, sizes and byte totals (the epoch counter is bounded instead, and expiry
  parsing wraps); rounding of floating-point amounts, which are reals; one clock reading per limiter call.
- AES-GCM, X25519, SHA-256, PBKDF2 and randomness: ideal boxes, equal content exactly for equal hashes, fresh
  keys. A device key belongs to one account, and a hub that makes up device keys of its own is not modelled.
- A channel name is not used again after its channel is deleted, in the key protocol only.
- Whether a key ever arrives: a rotating device may go away before it draws the key.
- The client's own choice of `since`; resumption is stated for the `since` the hub receives.
- Saved-session listing and single revocation, connection limits per account, mutes, topics, message rates as
  part of `Access`: they give or take no rank. Account names are resolved before they reach the model.
- Non-ASCII white space and letter case in HTTP heads, and headers a caller adds that themselves speak of
  content length or transfer encoding.
- RetainedFilesStay: asks that no restart happens while the channel's expiry has been raised since the log last
  agreed with memory; RestartLosesFile shows why and RestartBackedExact says exactly when a restart is harmless.
- BooksFromStart: says nothing about the figures of guests, which are not charged while the hub runs but are
  counted when it starts again.
- EvictionInvisible: is stated for keys whose limits stay the same and whose bucket fills in an hour; for one
  limit everywhere HourIsEnough shows that nothing weaker will do.
- InvitesConserved: for a code that was revoked, expired or went with its channel only the upper bound is left;
  for one that was used up LastUse and UsedUpForGood give equality.
- FramesAlike: compares answers. That a refused frame leaves the hub state alone is by construction, and what an
  accepted one does to it is told in the modules on messages and keys.
- HiddenEqualsAbsent: leaves `create` and `join` out, whose answers depend on every channel by design; of what
  other accounts do, it interleaves their commands on channels and not those on accounts and settings.
