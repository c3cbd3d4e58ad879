# Valanium: the durable protocols of the client core

This project models the parts of the Valanium client core whose correctness spans many
calls, and proves what they promise: the durable outbox and its two sending paths, the
atomic move of ratchet, history and outbox, first contact, account linking over the local
network, and the byte formats and bounded guards around them. `dafny verify
dfyconfig.toml` checks everything.

## How it is laid out

| files | what they hold |
|---|---|
| `Envelopes`, `Scheduler`, `Delivery`, `Outbox` | envelopes, the pass that picks what may be sent, delivery evidence, the stored queue |
| `Sending`, `SendingSafety`, `SendingRuns`, `SendingPromises`, `Session` | the sending protocol as a state machine, its invariant, its promises, and the client's loops proved to take its steps |
| `FirstContact`, `FirstContactSafety`, `FirstContactPromises`, `Messenger` | ratchet, own history, outbox, evidence and waiting messages moving together |
| `PairingStream`, `Pairing`, `PairingSafety`, `PairingPromises`, `PairingRuns`, `Linking` | account linking: the frame stream, the two-party protocol under every interleaving, some of its runs, the target's manager |
| `Bits`, `Fields`, `Recovery`, `Profile`, `Snapshot`, `OnionList` | base32, base64, length-prefixed formats, the signed list of entrances |
| `Calls`, `EventQueue`, `Pins`, `Subnet` | replay memory, event queue, key pinning, network text |

Code that changes state is a class whose methods are proved equal to functions on values;
runs are folds of those functions, and the promises are lemmas about every run. A write or
read that the storage may refuse is a nondeterministic choice, so every failure point but
those named under "Left out" is covered. Clocks, random references and identifiers are parameters. Cryptography is ideal:
a ciphertext is its group, ratchet position and text; a cipher is any function that opening
undoes; there is a signature for each list its owner signed and for nothing else; the
linking channel delivers the peer's plaintexts in order or breaks.

## Where the code differs from what is said about it

- `anon_queue.rs:152-159` says that at most one envelope per device is active, except for
  an application message beside an ephemeral signal in flight. Two signals can be in flight
  together as well. `SendingPromises.TogetherExactly` says which kinds can: two kinds meet
  in some allowed run if and only if neither is Essential and at least one is Ephemeral,
  with the runs for it; `OneInFlightPerDevice` is the bound in every reachable state.
- Delivery evidence is filed under a hash of the conversation followed by the message id
  with nothing between them (`delivery.rs:17-21`). Two messages share a record if and only
  if the concatenations agree: `Delivery.KeysCollide`, with a collision in `KeysDoCollide`;
  `KeysBind` gives the case in which the binding is exact.
- Base64 decoding accepts padding anywhere and ignores the last bits
  (`profile.rs:141-158`), so different texts decode alike: `Profile.PaddingAnywhere` and
  `Profile.TailBitsAreIgnored`; `Profile.AcceptedReencodes` says exactly which accepted
  texts encoding gives back.
- A vertical tab separates words of a recovery code but is not dropped when the code is
  cleaned (`recovery.rs:103-111`), so one white space is not as good as another. Of the
  bytes put into a code that stands for a key, exactly the separators leave it standing:
  `Recovery.OnlySeparatorsMayBeAdded`. Every code with a vertical tab that does not make 24
  words is refused: `Recovery.VerticalTabIsRefused`; `Recovery.TabForSpaceIsRefused` and
  `Recovery.TabbedCode` show it on shown codes and on one concrete text.
- A cancelled linking session may install after all when the storage refused to clear its
  stage (`pairing.rs:786-792`). `PairingPromises.CancelInTime` is the exact condition: a
  cancellation lies between the start of the session that installs and its final check if
  and only if a refused cancellation had found that very session active before anything
  was installed. `PairingRuns.RefusedCancelCanBeOutrun` is such a run, and in
  `PairingRuns.RefusalElsewhereIsHarmless` a cancellation of another session is refused and
  the guarantee holds.
- A call request is answered once per peer, identifier and expiry
  (`Calls.AnsweredAtMostOnce`), not once per peer and identifier. It is answered if and only
  if it is fresh, fewer than 128 answers are unexpired, and every earlier answer to that
  peer and identifier has expired: `Calls.AnsweredExactlyWhen`; `Calls.NewExpiryIsAnsweredAgain`
  is a run in which the same two are answered twice.
- An address group with a leading zero is another network to `subnet`: two addresses share
  a network if and only if their first four groups are the same text
  (`Subnet.OneNetworkPerPrefix`), so `Subnet.LeadingZeroMatters`.

## Model

| member | source | states |
|---|---|---|
| `Scheduler.ReadyEnvelopes` | valanium-core/src/anon_queue.rs:160-184 | the pass over busy sets, barriers and candidates, then sort and take, returns the declarative schedule: per device the least eligible item, then the least overall |
| `Scheduler.Candidates` | valanium-core/src/anon_queue.rs:168-181 | after the single pass each device with an eligible item has a candidate, and it is the one that comes before all other eligible items of that device |
| `Scheduler.SortIsRanking` | valanium-core/src/anon_queue.rs:182-183 | whatever order the candidate map is walked in, sorting gives the one ranking of the winners |
| `Scheduler.OrderIsUnique` | valanium-core/src/anon_queue.rs:182 | two ordered lists of the same items are the same list, so equal scores stay first in, first out |
| `Scheduler.ReadyItems` | valanium-core/src/anon_queue.rs:152-184 | everything offered is queued, unblocked and the winner of its device; no device is offered two items |
| `Scheduler.ReadyTakesTheLeast` | valanium-core/src/anon_queue.rs:182-183 | what the limit leaves out comes after everything that is offered |
| `Scheduler.ReadyServesEveryDevice` | valanium-core/src/anon_queue.rs:160-184 | the number offered is the smaller of the limit and the number of devices that can be served |
| `Scheduler.ReadyProgress` | valanium-core/src/anon_queue.rs:160-184 | with nothing in flight and room for one, a queue that is not empty yields something |
| `Scheduler.AgedIsNotStarved` | valanium-core/src/anon_queue.rs:166-167 | an item past the ageing limit is passed over within its device only for score 0 or something queued earlier |
| `Delivery.ReplayIsJoin` | valanium-core/src/delivery.rs:30-57 | for a tracked device any events leave the least upper bound of what they vouch for; untracked devices never appear |
| `Delivery.ReplayIgnoresOrder` | valanium-core/src/delivery.rs:37-57 | order and repetition of receipts do not matter |
| `Delivery.State` | valanium-core/src/delivery.rs:69-78 | reported is the least step over the devices, or expired exactly when some device is still queued past the deadline |
| `Delivery.ReportNeverRegresses` | valanium-core/src/delivery.rs:69-78 | for a fixed set of devices the reported step never falls |
| `Delivery.KeysCollide` | valanium-core/src/delivery.rs:17-21 | two messages share a record exactly when one conversation extends the other by what its id is shorter by |
| `Delivery.KeysDoCollide` | valanium-core/src/delivery.rs:17-21 | a concrete collision of two different messages |
| `Delivery.KeysBind` | valanium-core/src/delivery.rs:17-21 | between conversations of one length the binding to conversation and id is exact |
| `Outbox.Store.TrackDelivery` | valanium-core/src/delivery.rs:30-36 | the new evidence is the specified one, or nothing changed |
| `Outbox.Store.AcceptDelivery` | valanium-core/src/delivery.rs:46-57 | a known device rises to accepted with its first time; an unknown one writes nothing |
| `Outbox.Store.ConfirmDelivery` | valanium-core/src/delivery.rs:66-68 | a known device rises to delivered; an unknown one writes nothing |
| `Outbox.Store.EnqueueBatch` | valanium-core/src/anon_queue.rs:54-78 | a batch is refused exactly for a repeated reference or for exceeding the limits, and otherwise queue and evidence change together or not at all |
| `Outbox.Store.Acknowledge` | valanium-core/src/anon_queue.rs:80-93 | the evidence of the matching items and their removal are one change |
| `Outbox.Store.ContainsMessage` | valanium-core/src/anon_queue.rs:95-98 | true exactly when an item of the conversation has that id or that reference in hex |
| `Outbox.Store.CancelMessage` | valanium-core/src/anon_queue.rs:100-105 | removes exactly the items that the id names |
| `Outbox.Store.CancelThread` | valanium-core/src/anon_queue.rs:107-112 | clears a conversation and keeps every Essential of any conversation |
| `Outbox.Store.ForgetThread` | valanium-core/src/anon_queue.rs:114-118 | removes exactly the conversation |
| `Outbox.Store.DropEphemeral` | valanium-core/src/anon_queue.rs:120-124 | removes exactly the ephemeral items |
| `Outbox.Store.PruneExpired` | valanium-core/src/anon_queue.rs:126-132 | returns exactly what is not past its deadline |
| `Outbox.Store.BoundLegacyLifetimes` | valanium-core/src/anon_queue.rs:136-150 | gives a lifetime to items without one, with their evidence, together or not at all |
| `SendingRuns.ReachableInv` | valanium-core/src/client.rs:4878-4953 | every event, in every allowed run, keeps the invariant of queue, evidence, flights and history |
| `SendingPromises.BarrierSafety` | valanium-core/src/anon_queue.rs:152-184 | a transmitted frame was preceded out of the queue by every earlier Essential of its device, an Essential by everything earlier of its device, and none of them came back |
| `SendingPromises.OneInFlightPerDevice` | valanium-core/src/client.rs:4899-4950 | at most one non-ephemeral queued item per device is in flight; an Essential in flight is alone and first of its device |
| `SendingPromises.TogetherExactly` | valanium-core/src/anon_queue.rs:152-184 | some allowed run has envelopes of these two kinds in flight for one device if and only if neither is Essential and at least one is Ephemeral |
| `SendingPromises.BoundsHold` | valanium-core/src/client.rs:4903-4919 | 128 items, 16 MiB, unique references, at most four direct and four anonymous flights, never one reference on both |
| `SendingPromises.Conservation` | valanium-core/src/anon_queue.rs:54-150 | an enqueued envelope is exactly one of queued, acknowledged and dropped; queued it is unchanged but for its lifetime, acknowledged it had been sent |
| `SendingPromises.ExactRetry` | valanium-core/src/client.rs:4904-4950 | every transmission of a reference carries the enqueued bytes to the enqueued device; what was not created for the authenticated socket never goes out on it |
| `SendingPromises.EvidenceAgrees` | valanium-core/src/delivery.rs:30-57 | queued messages have an entry, acknowledged ones are at least accepted, and an entry still queued was never acknowledged |
| `SendingPromises.EvidenceIsFounded` | valanium-core/src/delivery.rs:37-45 | every entry stems from an enqueued message |
| `SendingPromises.RemovedExactlyBy` | valanium-core/src/client.rs:3568-3600 | an event removes an envelope exactly when it is a stored acknowledgement, a removal naming it, or its expiry; failures, timeouts, network changes and restarts remove nothing |
| `SendingPromises.CanAlwaysDrain` | valanium-core/src/client.rs:4924-4950 | from every reachable state there is a run that delivers everything queued and drops nothing |
| `Session.Client.EnqueueBatch` | valanium-core/src/anon_queue.rs:54-78 | takes the protocol's step, or changes nothing and says why |
| `Session.Client.OnSendOk` | valanium-core/src/client.rs:3687-3703 | takes the protocol's step for an acknowledgement on the authenticated socket, wherever the storage fails |
| `Session.Client.OnAnonymousOk` | valanium-core/src/client.rs:3568-3586 | takes the protocol's step for an anonymous success |
| `Session.Client.OnAnonymousFailed` | valanium-core/src/client.rs:3587-3598 | takes the protocol's step for an anonymous failure, with its growing delay |
| `Session.Client.InvalidateNetwork` | valanium-core/src/client.rs:441-453 | flights, retries and prepared sockets are gone, the queue is not |
| `Session.Client.CancelRemovedAnonymous` | valanium-core/src/client.rs:4731-4739 | only what is still queued stays in flight |
| `Session.Client.FlushAnonymous` | valanium-core/src/client.rs:4878-4953 | the two loops of a flush take exactly the protocol's flush step, wherever the socket breaks; when the storage refuses, nothing changed, only lifetimes were bounded, or only the queue was trimmed, each a step of the protocol too |
| `Session.Client.DeleteMessage` | valanium-core/src/anon_queue.rs:100-105 | takes the protocol's step for a deleted message, or nothing changes |
| `Session.Client.ClearThread` | valanium-core/src/anon_queue.rs:107-112 | takes the protocol's step for a cleared conversation, or nothing changes |
| `Session.Client.ForgetThread` | valanium-core/src/anon_queue.rs:114-118 | takes the protocol's step for a forgotten conversation, or nothing changes |
| `Session.Client.DropEphemeral` | valanium-core/src/anon_queue.rs:120-124 | takes the protocol's step that drops signals, or nothing changes |
| `Session.Client.OnReceipt` | valanium-core/src/delivery.rs:66-68 | takes the protocol's step for a peer's receipt, or nothing changes |
| `FirstContactSafety.RunKeepsAccountInv` | valanium-core/src/client.rs:4243-4515 | every step of sending, delivering, first contact, rekeying, repair, clearing, reconnecting and the network keeps the account's invariant |
| `FirstContactPromises.RatchetIsDurable` | valanium-core/src/client.rs:4481-4515 | after any steps, refused ones among them, the ratchet in memory is the one on disk |
| `FirstContactPromises.PositionsAreUsedOnce` | valanium-core/src/client.rs:4488-4514 | no two stored ciphertexts share a group and position but copies of one commit, although refused positions are reused |
| `FirstContactPromises.CommitsAreCopied` | valanium-core/src/client.rs:1796-1807 | a run in which one commit is stored once for each of two other members |
| `FirstContactPromises.StoredPositionsArePassed` | valanium-core/src/client.rs:4497-4498 | what is stored was made at a position that the ratchet on disk has left behind |
| `FirstContactPromises.OneClaimPerDevice` | valanium-core/src/client.rs:4424-4436 | at most one key package is on its way for a device, also when a conversation without its group asks for one |
| `FirstContactPromises.RepairActs` | valanium-core/src/client.rs:1267-1281 | a linked history leaves a conversation without its group, and the repair then claims a key package |
| `FirstContactPromises.NewGroupKeepsTheThread` | valanium-core/src/client.rs:1248-1261 | a new group for a known device takes the place of the old one in the same thread and touches no other conversation |
| `FirstContactPromises.NothingQueuedTwice` | valanium-core/src/client.rs:4485-4487 | a logical message is never queued twice for a device and thread |
| `FirstContactPromises.WelcomeLeavesFirst` | valanium-core/src/client.rs:4268-4285 | whatever a group started here transmits, its Welcome for that device was stored before it and had left the queue |
| `FirstContactPromises.IntentLeavesOnlyBy` | valanium-core/src/client.rs:368-388 | a waiting message leaves the list only when the outbox holds it or its twin, its peer is blocked, or its thread is cleared or forgotten |
| `FirstContactPromises.NothingWaitingIsLost` | valanium-core/src/client.rs:4406-4443 | over whole runs a message that waited and no longer waits was answered for or cleared at some step |
| `FirstContactPromises.EstablishServesAll` | valanium-core/src/client.rs:4272-4284 | after a first contact nothing waits for the device but activity that it may not be told |
| `FirstContactPromises.OwnHistoryIsWhatWasSent` | valanium-core/src/client.rs:4496-4502 | each message of the own history is, once, the plaintext stored in the outbox under the same reference |
| `Messenger.Messenger.QueuePrivateMessage` | valanium-core/src/client.rs:4481-4515 | ratchet, own copy, ciphertext, evidence and waiting list change as specified, or nothing changes and the refusal is the specified one |
| `Messenger.Messenger.StoreMessage` | valanium-core/src/client.rs:4497-4509 | the writes of one message under their savepoint, all or none |
| `Messenger.Messenger.RekeyGroup` | valanium-core/src/client.rs:1796-1807 | the commit reaches every other member's queue with the new ratchet, or nothing changes |
| `Messenger.Messenger.OnKeyPackage` | valanium-core/src/client.rs:4243-4299 | the claim is gone whatever happens; of a first contact that was refused nothing else remains |
| `Messenger.Messenger.DeliverTo` | valanium-core/src/client.rs:4406-4443 | sends now, or remembers and asks for a key package unless one is outstanding; all or nothing |
| `Messenger.Messenger.RepairMissing` | valanium-core/src/client.rs:1267-1281 | a conversation whose group is missing claims a key package, once |
| `PairingStream.StreamRoundTrip` | valanium-core/src/pairing.rs:615-648 | the receiver rebuilds exactly the payload and records that were sent, for every list |
| `PairingStream.PrefixNeverInstalls` | valanium-core/src/pairing.rs:465-503 | no strict prefix of the frames reaches the installation |
| `PairingStream.HeardIsABeginning` | valanium-core/src/pairing.rs:629-648 | whatever part of the frames has arrived, the receiver holds a beginning of what was sent |
| `PairingStream.FramesFit` | valanium-core/src/pairing.rs:224-259 | every frame with its tag is 17 to 4096 bytes |
| `PairingStream.CollectIsExact` | valanium-core/src/pairing.rs:639-647 | an accepted payload is its non-empty frames put together, exactly as long as announced |
| `PairingStream.Channel.SendPayload` | valanium-core/src/pairing.rs:615-628 | writes exactly the payload's frames; when the connection breaks, a strict prefix of them |
| `PairingStream.Channel.ReceivePayload` | valanium-core/src/pairing.rs:629-648 | the reading loop computes the specified reading |
| `PairingStream.Channel.ReceiveAccount` | valanium-core/src/pairing.rs:465-503 | succeeds exactly on a whole stream and returns its payload and records |
| `Pairing.InstallHistory` | valanium-core/src/store/link_history.rs:140-226 | accepts exactly a header, then as many messages as it says, none repeated |
| `Pairing.CutHistoryIsRefused` | valanium-core/src/store/link_history.rs:140-226 | what a part of an export restores is all of its messages |
| `PairingSafety.RunKeepsInv` | valanium-core/src/pairing.rs:447-980 | every step of either user, task, core, channel or cancellation keeps the invariant |
| `PairingPromises.CredentialsNeedBothUsers` | valanium-core/src/pairing.rs:793-827 | credentials on the target mean that both users confirmed, the unlock check passed, and account and history are the released ones |
| `PairingPromises.AccountLeavesAfterBothConfirmed` | valanium-core/src/pairing.rs:526-537 | nothing of the account is sent before both users confirmed |
| `PairingPromises.CompleteMeansInstalled` | valanium-core/src/pairing.rs:542-557 | the source reports complete only when the target durably holds the account and the full ordered history |
| `PairingPromises.AccountAndHistoryTogether` | valanium-core/src/pairing.rs:959-980 | without credentials there is no history |
| `PairingPromises.CancelInTime` | valanium-core/src/pairing.rs:943-980 | a cancellation was pressed between the start of the session that installs and its final check if and only if the storage had refused a cancellation that found this session active |
| `PairingRuns.RefusedCancelCanBeOutrun` | valanium-core/src/pairing.rs:786-792 | the concrete run behind that exception |
| `PairingRuns.RefusalElsewhereIsHarmless` | valanium-core/src/pairing.rs:786-792 | a refused cancellation of another session leaves the guarantee in force |
| `PairingPromises.NothingStagedIsLeft` | valanium-core/src/pairing.rs:559-572 | once a receiving task has ended and the core caught up, none of its staged history is left unless the storage refused |
| `PairingRuns.LinkingCanSucceed` | valanium-core/src/pairing.rs:447-558 | every account with distinct message identifiers can be linked |
| `Linking.Manager.ConfirmSession` | valanium-core/src/pairing.rs:793-827 | takes the core's step for a confirmation |
| `Linking.Manager.CancelSession` | valanium-core/src/pairing.rs:786-792 | takes the core's step for a cancellation, also when the storage refuses |
| `Linking.Manager.Listen` | valanium-core/src/pairing.rs:828-895 | takes the core's step for a new session |
| `Linking.Manager.StageRecord` | valanium-core/src/store/link_history.rs:39-61 | stages a record only for the valid receiver and only the next one |
| `Linking.Manager.CleanUp` | valanium-core/src/client.rs:568 | takes the core's step for a task that ended: its stage is gone, or nothing changed when the storage refuses |
| `Linking.Manager.InstallSession` | valanium-core/src/pairing.rs:959-980 | account, history and stage change together after a final check that sees what other threads did meanwhile, or not at all |
| `Recovery.Base32Encode` | valanium-core/src/recovery.rs:137-155 | the text is the bytes' bits in fives although the 32-bit register wraps |
| `Recovery.Base32Decode` | valanium-core/src/recovery.rs:157-183 | succeeds exactly when the text is a decoding, with zeros left over, and returns it |
| `Recovery.EncodeThenDecode` | valanium-core/src/recovery.rs:137-183 | the two loops one after the other give every byte string back |
| `Recovery.DecodeInvertsEncode` | valanium-core/src/recovery.rs:137-183 | what encoding makes of a byte string decodes to that byte string and to nothing else |
| `Recovery.AcceptedReencodes` | valanium-core/src/recovery.rs:176-182 | an accepted text is the encoding of its decoding exactly when fewer than five bits are left over |
| `Recovery.Decode` | valanium-core/src/recovery.rs:99-127 | a code is read as a key exactly when it does not make 24 words and cleans to the base32 of that key and its checksum |
| `Recovery.Encode` | valanium-core/src/recovery.rs:40-53 | the shown code stands for the key and makes eleven words |
| `Recovery.ShownIsRead` | valanium-core/src/recovery.rs:40-127 | what is shown is read back |
| `Recovery.CopyingKeepsTheKey` | valanium-core/src/recovery.rs:107-111 | separators and case do not change what a code cleans to |
| `Recovery.CopiesAreReadAlike` | valanium-core/src/recovery.rs:99-127 | two codes that clean to the same text give the same result if and only if both or neither make 24 words |
| `Recovery.OnlySeparatorsMayBeAdded` | valanium-core/src/recovery.rs:107-113 | a byte put into a code that stands for a key leaves it standing for that key if and only if the byte is a separator; otherwise it stands for none |
| `Recovery.VerticalTabIsRefused` | valanium-core/src/recovery.rs:103-113 | a code with a vertical tab that does not make 24 words is refused |
| `Recovery.TabForSpaceIsRefused` | valanium-core/src/recovery.rs:40-113 | a vertical tab in the place of any space of a shown code leaves eleven words and is refused |
| `Recovery.TabbedCode` | valanium-core/src/recovery.rs:99-127 | a concrete text that is read with a space in it and refused with a vertical tab |
| `Recovery.TailChangesAreRefused` | valanium-core/src/recovery.rs:117-126 | of two accepted codes with the same key bits, checksum and tail are the same too |
| `Profile.Encode` | valanium-core/src/profile.rs:128-139 | the text is the bytes' bits in sixes with the padding at the end |
| `Profile.Decode` | valanium-core/src/profile.rs:141-158 | succeeds exactly when all but padding and line ends are digits; stale high bits of the accumulator do not matter |
| `Profile.EncodeThenDecode` | valanium-core/src/profile.rs:128-158 | the two loops one after the other give every byte string back |
| `Profile.DecodeInvertsEncode` | valanium-core/src/profile.rs:128-158 | what encoding makes of a byte string decodes to that byte string and to nothing else |
| `Profile.AcceptedReencodes` | valanium-core/src/profile.rs:141-158 | an accepted text is the encoding of its decoding exactly when it is canonical |
| `Profile.TailBitsAreIgnored` | valanium-core/src/profile.rs:141-158 | two texts with one decoding |
| `Profile.PaddingAnywhere` | valanium-core/src/profile.rs:141-158 | padding and line ends may stand anywhere without changing what a text decodes to |
| `Profile.Seal` | valanium-core/src/profile.rs:59-73 | refuses exactly a type over 255 bytes or a text that is no base64; otherwise seals the frame of type and picture |
| `Profile.Open` | valanium-core/src/profile.rs:76-86 | gives the type and picture of the frame that the text opens to, and fails only when there is none with a readable type |
| `Profile.SealThenOpen` | valanium-core/src/profile.rs:59-86 | opening undoes sealing: same type, canonical text of the same picture |
| `Snapshot.SnapshotRoundTrip` | valanium-core/src/mls.rs:133-145 | restoring a snapshot gives the map back in whichever order it was listed |
| `Snapshot.PrefixIsRejected` | valanium-core/src/mls.rs:572-599 | every strict prefix of a snapshot is rejected |
| `Snapshot.Storage.TakeSnapshot` | valanium-core/src/mls.rs:133-145 | writes the format for some order of the entries |
| `Snapshot.Storage.RestoreFrom` | valanium-core/src/mls.rs:572-599 | the cursor loop accepts exactly what the format's reading accepts and never reads past the end |
| `Snapshot.Transfer` | valanium-core/src/mls.rs:133-145 | what is taken from one storage another takes over |
| `OnionList.PreImageDetermines` | valanium-core/src/onion.rs:63-73 | no two lists of hosts and times have one pre-image |
| `OnionList.OnlyTheOwnersLists` | valanium-core/src/onion.rs:85-93 | some signature verifies for a list exactly when it is one of the signed lists, whole and with its own time |
| `OnionList.TimeNeverGoesBack` | valanium-core/src/client.rs:287-292 | over any greetings the stored time of issue never decreases, even when the storage fails between the two settings |
| `OnionList.HostsComeFromAList` | valanium-core/src/client.rs:293-306 | stored hosts are the valid ones of a verified list, of exactly the stored time if the storage worked |
| `OnionList.HostsAreTheOwners` | valanium-core/src/client.rs:269-307 | whatever the server sends, the stored hosts are the valid ones of a list that the holder of the offline key signed |
| `OnionList.Store.RememberOnionHosts` | valanium-core/src/client.rs:269-307 | takes over a list exactly when it is non-empty, verified, not older and has a valid host |
| `OnionList.Store.RoutesFor` | valanium-core/src/client.rs:233-244 | the routes of the three modes |
| `OnionList.OnionModeIsOnion` | valanium-core/src/client.rs:233-331 | onion mode has routes, all of them onion routes, both fallbacks among them |
| `Calls.AnsweredAtMostOnce` | valanium-core/src/calls.rs:101-109 | under a clock that does not go back a peer's request with its expiry is answered at most once in any run |
| `Calls.AnsweredExactlyWhen` | valanium-core/src/calls.rs:101-109 | a request is answered if and only if it is fresh, fewer than 128 answers are unexpired, and every earlier answer to its peer and identifier has expired |
| `Calls.MemoryIsBounded` | valanium-core/src/calls.rs:85-109 | at most 8 waiting probes for distinct peers and 128 remembered answers |
| `Calls.CompletesOnceForItsPeer` | valanium-core/src/calls.rs:110-124 | a probe completes at most once and only for the peer it was sent to |
| `Calls.NewExpiryIsAnsweredAgain` | valanium-core/src/calls.rs:101-109 | a run in which, the first answer having expired, the same peer and identifier are answered again |
| `Calls.Pending.StartProbe` | valanium-core/src/calls.rs:85-100 | starts a probe exactly when there is room and the peer has none waiting |
| `Calls.Pending.Answer` | valanium-core/src/calls.rs:101-109 | answers exactly a fresh request that is not remembered, while there is room |
| `Calls.Pending.Complete` | valanium-core/src/calls.rs:110-124 | completes exactly a fresh refusal from the probe's own peer |
| `EventQueue.OutputIsASubsequence` | valanium-core/src/ffi.rs:28-56 | what was popped and then what is queued are pushed events in order, none twice; the queue is bounded |
| `EventQueue.QueuedAudioIsTheLatest` | valanium-core/src/ffi.rs:32-37 | at most four audio events are queued and they are the latest pushed |
| `EventQueue.ControlIsLostOnlyToOverflow` | valanium-core/src/ffi.rs:38-40 | a control event is queued, popped, or overflowed |
| `EventQueue.OverflowNeedsAFullQueue` | valanium-core/src/ffi.rs:38-40 | overflow happens only in a push onto 4096 queued events |
| `EventQueue.PushForgetsTags` | valanium-core/src/ffi.rs:29-44 | the queue does with events what the numbered runs do with them |
| `EventQueue.Queue.Push` | valanium-core/src/ffi.rs:29-44 | evicts the oldest audio, then the oldest event, exactly when full |
| `EventQueue.Queue.Pop` | valanium-core/src/ffi.rs:46-56 | takes the front |
| `Pins.PinsAreSound` | valanium-core/src/pins.rs:73-131 | a pinned key is never untrusted under its own name and a pending one always is |
| `Pins.PinIsFirstOrLastAccepted` | valanium-core/src/pins.rs:73-125 | a pinned key is the first seen or the last accepted since the name was forgotten |
| `Pins.ChangedStaysBlocked` | valanium-core/src/pins.rs:92-131 | a key reported as changed stays blocked until it is accepted while it waits under that name, or the name is forgotten |
| `Pins.BlockedExactlyWhen` | valanium-core/src/pins.rs:78-131 | after any run a device is blocked if and only if its key was reported as changed under some name and not released there since |
| `Pins.RefusedAcceptanceReleasesNothing` | valanium-core/src/pins.rs:103-119 | accepting a candidate that a later one superseded is refused, and it stays blocked |
| `Pins.AcceptanceLiftsOneBlock` | valanium-core/src/pins.rs:103-119 | acceptance lifts a name's block on exactly the key offered last |
| `Pins.PinBook.CheckKey` | valanium-core/src/pins.rs:78-100 | the verdict and the new pins for a looked-up key |
| `Pins.PinBook.AcceptKey` | valanium-core/src/pins.rs:103-119 | accepts exactly what waits for a decision |
| `Pins.PinBook.ForgetName` | valanium-core/src/pins.rs:123-125 | the name is gone with its pin, pending and untrusted keys, other names are as they were; says whether it was known |
| `Pins.PinBook.BlocksDevice` | valanium-core/src/pins.rs:127-131 | true exactly when some name holds the key pending or untrusted |
| `Subnet.SpellingDoesNotMatter` | deploy/mesh/valanium-blind.js:48-78 | every compressed spelling of an address gives what its full spelling gives |
| `Subnet.OneNetworkPerPrefix` | deploy/mesh/valanium-blind.js:48-78 | two addresses share a result exactly when their first four groups are the same text |
| `Subnet.LeadingZeroMatters` | deploy/mesh/valanium-blind.js:48-78 | two spellings of a group give two networks |

## Left out

- Sockets, Tor, timers and the order in which the asynchronous runtime wakes tasks: each event is a step that may happen at any time.
- The sent-at stamp of delivery evidence, its failing write (which ends a flush early) and latency samples.
- Prewarming, hedging and ticket requests: the pools of tickets and prepared sockets change in one arbitrary step.
- Progress of a flush over a queue that mixes envelopes for both paths: the scheduler applies its limit before the path is looked at, so only the scheduler's own progress is claimed.
- Group messages and invitations (`finish_invite`, `announce_group`, group sends), which save the ratchet before the fan-out.
- What a linked history brings besides the group of each conversation: its messages are not part of the modelled own history, which is what this device has sent.
- Clearing or forgetting a conversation is one step that the storage carries out in full; the outbox's part of it is a step of the network of its own.
- A device that loses its stored ratchet: positions would start again under new groups.
- The receiving side of envelopes, and everything it stores; a Welcome from a peer is one step.
- Which member of a group rekeys it and when a group is due.
- The in-memory outbox of `Live` and the order in which a person's devices are tried.
- Restoring the ratchet after a refused operation is taken to succeed.
- Message bodies are their text and what the access rules say of them; padding is not part of this model.
- A message id in JSON, blocked and unpinned peers and the anonymity setting are parameters of a step.
- Linking from an offer that the account holder shows: the listening side changes, the protocol does not; scanning one offer twice, which reuses a session identifier, is not part of this model.
- The history snapshot of the source is taken when its confirmation is processed; the limits on record number and total size of the stage are part of what the storage may refuse.
- The 24-word phrase and its dictionary; words of a recovery code are counted over ASCII white space.
- A platform whose lengths are narrower than 64 bits, where the snapshot's lengths would be truncated.
- Overflow of 64-bit clocks near their end.
- Emblem and colour sealing, the other directory, privacy and access rules, and the interface shells.
