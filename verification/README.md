# Verified models of a safe_network client, node and auditor

This project models, in Dafny 4.11, the parts of the network's code whose correctness depends on whole runs rather than
on single calls, and proves what those parts promise. `dafny verify dfyconfig.toml` checks everything.

| file | part of the system |
|---|---|
| `Wrappers.dfy`, `Sequences.dfy`, `Decimals.dfy` | shared types, reversed lists and decimal notation |
| `MerkleRegister.dfy` | the Merkle register under every register and folder: nodes, orphans, current entries |
| `ClientRegister.dfy` | offline writes to a register and the queue that is pushed later |
| `RegisterMerge.dfy` | joining the register records different peers return |
| `Folders.dfy` | a folder kept in a register: add, replace, remove, list |
| `AccountPacket.dfy` | comparing a directory tree with what was last synced, and recording the differences |
| `DataMapPacking.dfy` | packing a data map that may not fit in a chunk, and the two clients that follow it back |
| `BetaRewards.dfy` | the auditor's reward ledger under interleaved spends and registrations |
| `UtxoCrawl.dfy` | the auditor's endless crawl over unspent outputs |
| `PeerQuality.dfy` | a node's judgement of its peers: issues, quotes, replication requests |
| `WalletPayments.dfy` | paying from a wallet whose spends may not reach the network |
| `QuotePayments.dfy` | batched payments through the payment contract and their approval |
| `TokenAmount.dfy` | token amounts as decimal text |
| `KeySequences.dfy` | key bindings as text |
| `PortAllocation.dfy` | adding nodes on free ports |

How the models are built:

- A hash is ideal: a register node is its own hash, a chunk name is the chunk. Where collisions matter
  (participant names, chunk addresses) the hash is a parameter and being free of collisions is stated as a hypothesis.
- The network, the clock, random draws, the disk tree and the order in which hash maps or parallel tasks yield their
  items are parameters; theorems hold for all of them.
- Concurrent tasks are steps of a state machine that may interleave wherever the code releases its locks.
- Fields that the code updates in place are fields of a class; each method is proved against functions of the old
  state, and the theorems about runs are lemmas about those functions.
- Where a promise of the code does not hold, the code is kept as it is: a lemma shows a failing input and another one
  says exactly when the promise holds.

| promise | holds exactly when | fails for |
|---|---|---|
| the order of register records does not matter | `RegisterMerge.OrderIrrelevantIff` | `RegisterMerge.OrderMatters` |
| a folder behaves like a map | `Folders.PutIff`, `Folders.RunIsPlainIff` | `Folders.ReAddStaysHidden` |
| a folder shows what its directory holds | `AccountPackets.FoldersMirrorDiskIff`, `AccountPackets.SyncKeepsMirrorIff` | `AccountPackets.ReAddedFileIsMissed`, `AccountPackets.OneFileIsMissed`: a public file removed and found back unchanged |
| the tracking equals the tree after a sync | `AccountPackets.TracksInAnyOrderIff`, `AccountPackets.TracksInOrderIff` | `AccountPackets.PublicTwinBreaksTracking` |
| stored data comes back | `DataMapPacking.GetSucceedsIff` | `DataMapPacking.LargeDataIsNotRead` |
| a registered participant has no unknown bucket | `BetaRewards.NoneLeftBehindIff` | `BetaRewards.ImpostorLeavesOneBehind` |
| a settled bucket is what was credited | `BetaRewards.BucketsExactIff` | `BetaRewards.MixedRun` |
| three issues of a kind make a peer bad | `PeerQuality.ThirdIsMissedIff` | `PeerQuality.MissedThird` |
| a wallet with nothing pending may go on | `WalletPayments.ClearButRefusedIff` | `WalletPayments.AcceptedTooLate` |
| no input of a spend is lost | `WalletPayments.LostAreUnacceptedSends` | `WalletPayments.UnacceptedSendLosesNote` |
| the approval covers the royalties | `QuotePayments.CoversRoundingDown`, `QuotePayments.CoversRoundingUpIff` | `QuotePayments.LargestIsNotCovered`, `QuotePayments.NineIsNotCovered` |
| an amount survives writing and reading | `TokenAmount.RoundTripIff` | `TokenAmount.OneAttoIsMisread` |
| a key event survives writing and reading | `KeySequences.EventRoundTripIff` | `KeySequences.FunctionKeysDoNotReadBack` |
| a key sequence survives writing and reading | `KeySequences.SequenceRoundTripIff` | `KeySequences.LoneBracketIsNotRead` |
| adding nodes does not overflow the port number | `PortAllocation.NeverOverflowsIff` | `PortAllocation.SlowRunMustOverflow` |

Places where the code and its own documentation or tests disagree, and the model follows the code:

- `sn_evm/src/amount.rs:156-159` expects "1.1" to be 1 100 000 000 attos; the code reads 1.1 tokens of 10^18 attos.
- `sn_evm/src/data_payments.rs:36` calls the live time a number of hours; the code compares seconds.
- `sn_client/src/wallet.rs:32` sets ten resend attempts; the loop sends twelve times before it gives up.
- `sn_networking/src/cmd.rs:872-873` promises a bad mark on three issues of a kind; a full list can lose the first.

## Model

| member | source | states |
|---|---|---|
| `MerkleRegister.NotItsOwnChild` | sn_registers/src/reg_crdt.rs:68-81 | no node can name itself among its children |
| `MerkleRegister.DeliveredMonotone` | sn_registers/src/reg_crdt.rs:57-59 | merging more nodes never hides a node that had arrived with its whole history |
| `MerkleRegister.ReadCoversHistory` | sn_registers/src/reg_crdt.rs:108-114 | every delivered node is in the history of some current entry, so reading loses nothing |
| `MerkleRegister.ClosedIsDelivered` | sn_registers/src/reg_crdt.rs:84-100 | a register that received children before parents has no orphans |
| `MerkleRegister.LayerKeepsDelivery` | sn_registers/src/reg_crdt.rs:57-59 | adding a layer of fresh nodes changes the delivery of no older node |
| `MerkleRegister.ReadAfterLayer` | sn_registers/src/reg_crdt.rs:108-114 | a layer of fresh nodes replaces exactly the entries it names by exactly itself |
| `MerkleRegister.WriteReplacesIff` | sn_client/src/register.rs:434-451 | a node written atop current entries replaces exactly those if and only if nothing delivered names the new node |
| `MerkleRegister.NewNodeShows` | sn_client/src/register.rs:434-451 | in a register without orphans every new node becomes a current entry, and no orphan appears |
| `MerkleRegister.JoinIsNew` | sn_client/src/register.rs:397-406 | a node written atop all current entries is never already in the register |
| `MerkleRegister.JoinLeavesOneEntry` | sn_client/src/register.rs:397-406 | writing atop all entries leaves exactly the new one if and only if no orphan was waiting for it |
| `ClientRegisters.ClientRegister.constructor` | sn_client/src/register.rs:40-49 | a register starts with nothing queued, written or published, and all its nodes from elsewhere |
| `ClientRegisters.ClientRegister.Objection` | sn_registers/src/register.rs:348-363 | the reason a write is refused: permission first, then the size of the entry, then that of the register; none exactly when all three pass |
| `ClientRegisters.ClientRegister.WriteAtop` | sn_client/src/register.rs:434-451 | adds exactly the new node and queues it in front, or changes nothing and gives the first objection; the history stays causal when the children are known |
| `ClientRegisters.ClientRegister.Write` | sn_client/src/register.rs:362-369 | refused for branching exactly with two or more entries; otherwise the new node is fresh and, orphans aside, the single entry |
| `ClientRegisters.ClientRegister.WriteMergingBranches` | sn_client/src/register.rs:397-406 | from any state, whatever the branches, leaves the fresh new node as the single entry unless an orphan was waiting for it |
| `ClientRegisters.ClientRegister.Merge` | sn_registers/src/reg_crdt.rs:57-59 | keeps what either replica had delivered; queue and history stay consistent |
| `ClientRegisters.ClientRegister.Push` | sn_client/src/register.rs:582-608 | published operations followed by the queue read back to front are the operations in the order written, whatever is refused and when; ends early only at a refusal; what was published by then leaves no orphan on the network |
| `ClientRegisters.PopOldest` | sn_client/src/register.rs:582-608 | popping the back of the queue takes the oldest operation |
| `ClientRegisters.ClientRegister.Queue` | sn_client/src/register.rs:443-448 | an operation written last is published last, and one written atop known nodes keeps the history causal |
| `ClientRegisters.PrefixIsClosed` | sn_client/src/register.rs:582-608 | any first part of writes made atop known nodes names only nodes among them or from elsewhere |
| `ClientRegisters.ClientRegister.PublishedIsClosed` | sn_client/src/register.rs:582-608 | while every write was atop known nodes, however far a push got, a replica that applied what was published to the nodes from elsewhere holds no orphan |
| `RegisterMerge.VerifiedMerge` | sn_registers/src/register.rs:111-117 | merging keeps the base and the signature, and joins all operations of the other register exactly when it verifies and fits, and none otherwise; a verified register stays verified |
| `RegisterMerge.MergeRegisterRecords` | sn_client/src/api.rs:1062-1102 | the result is the first valid base with the operations of exactly the valid records that fit it; not found exactly when no record is valid |
| `RegisterMerge.MergeIsUnique` | sn_client/src/api.rs:1062-1102 | one listing of the records has one outcome |
| `RegisterMerge.OrderIrrelevantIff` | sn_client/src/api.rs:1062-1102 | every iteration order gives the same register if and only if all valid records share one base register |
| `RegisterMerge.OneBaseGivesOneResult` | sn_client/src/api.rs:1062-1102 | with one base the result does not depend on the order |
| `RegisterMerge.MergeWithFirst` | sn_client/src/api.rs:1062-1102 | any valid record listed first decides the base of the result |
| `RegisterMerge.OrderMatters` | sn_client/src/api.rs:1062-1102 | two valid records that fit each other and give another register in the other order |
| `RegisterMerge.BaseEntriesCanBeDropped` | sn_registers/src/register.rs:366-371 | two valid records that fit each other whose merge loses an entry of one base |
| `Folders.PutIff` | sn_client/src/folders.rs:311-336 | adding or replacing updates the folder like a plain map if and only if nothing names the new node |
| `Folders.RemoveDrops` | sn_client/src/folders.rs:172-178 | removing an item of a folder without orphans drops exactly that item |
| `Folders.ReAddStaysHidden` | sn_client/src/folders.rs:311-336 | removing an item and adding the same unencrypted metadata again leaves the folder without it |
| `Folders.StepIff` | sn_client/src/folders.rs:311-336 | replacing or removing a shown item always does to the folder what it does to a plain map; adding does exactly if the node is new to the register or a current entry |
| `Folders.RunIsPlainIff` | sn_client/src/folders.rs:251-292 | for every run of additions, replacements and removals of shown items, the folder equals the plain map after every operation if and only if each addition writes a node that is new or a current entry |
| `Folders.RunIsPlain` | sn_client/src/folders.rs:251-292 | then it equals the plain map at the end and has no orphan |
| `Folders.FoldersApi.constructor` | sn_client/src/folders.rs:297-308 | a folder starts with no cached metadata |
| `Folders.FoldersApi.AddEntry` | sn_client/src/folders.rs:311-336 | caches the metadata, writes exactly one node or none, and shows it like a map update exactly when nothing names it |
| `Folders.FoldersApi.AddFile` | sn_client/src/folders.rs:117-131 | the folder gains exactly the file |
| `Folders.FoldersApi.AddFolder` | sn_client/src/folders.rs:134-148 | the folder gains exactly the sub-folder |
| `Folders.FoldersApi.ReplaceFile` | sn_client/src/folders.rs:151-169 | the replaced entry goes and exactly the new file comes |
| `Folders.FoldersApi.RemoveItem` | sn_client/src/folders.rs:172-178 | exactly the removed entry disappears |
| `Folders.FoldersApi.Entries` | sn_client/src/folders.rs:251-292 | lists exactly the shown items and caches them all, or names one that could not be fetched; the cache only grows |
| `Folders.FoldersApi.FindByName` | sn_client/src/folders.rs:229-248 | once everything shown is cached, finds an item exactly when a shown item has the name |
| `AccountPackets.Packet.NewInfo` | sn_cli/src/acc_packet.rs:455-574 | the tracking information of a new or changed item describes what is on the disk |
| `AccountPackets.LastTouchDecides` | sn_cli/src/acc_packet.rs:288-303 | the last mutation that touches a metadata file decides what is left of it |
| `AccountPackets.UntouchedStays` | sn_cli/src/acc_packet.rs:288-303 | a metadata file no mutation touches stays as it was |
| `AccountPackets.NothingDueIff` | sn_cli/src/acc_packet.rs:455-574 | a scan reports something if and only if the tracking differs from the tree in a path, a kind or a content |
| `AccountPackets.NotKeptIsDropped` | sn_cli/src/acc_packet.rs:455-574 | every tracked item that changed or went has its old file dropped by some mutation |
| `AccountPackets.RecordedTracksIff` | sn_cli/src/acc_packet.rs:288-303 | recording the mutations of a scan in some order makes the tracking equal the tree if and only if none of them clobbers what another stored or an unchanged item has |
| `AccountPackets.TracksInAnyOrderIff` | sn_cli/src/acc_packet.rs:262-346 | in every order of visiting, the recorded tracking equals the tree if and only if the names of the new metadata chunks differ from each other and from all tracked ones |
| `AccountPackets.TracksInOrderIff` | sn_cli/src/acc_packet.rs:262-346 | for a given order of the files, the recorded tracking equals the tree if and only if the new names differ from each other and any old name taken is one a changed file gave up earlier in that order |
| `AccountPackets.DistinctNamesKeep` | sn_cli/src/acc_packet.rs:288-303 | with distinct names nothing is clobbered, private or public |
| `AccountPackets.NameTaken` | sn_cli/src/acc_packet.rs:288-303 | two new items of one name, or a new item with the name of an unchanged or removed one, are never both tracked |
| `AccountPackets.NameGivenUp` | sn_cli/src/acc_packet.rs:297-300 | a new item that takes the old name of a changed file is lost when it is recorded before it |
| `AccountPackets.LeftIsWanted` | sn_cli/src/acc_packet.rs:288-303 | nothing but the wanted information of items of the tree is left after recording |
| `AccountPackets.WantedIsLeft` | sn_cli/src/acc_packet.rs:288-303 | without clobbering, the wanted information of every item of the tree is left |
| `AccountPackets.DropsOnlyUnkept` | sn_cli/src/acc_packet.rs:455-574 | no mutation drops the file of an unchanged item |
| `AccountPackets.PrivateSyncTracks` | sn_cli/src/acc_packet.rs:358-390 | with private data, whose draws are fresh and distinct, the names are distinct and recording always succeeds, whatever became a file or a folder |
| `AccountPackets.PublicTwinBreaksTracking` | sn_cli/src/acc_packet.rs:358-390 | with public data a new file equal in name and content to another makes the tracking miss a file |
| `AccountPackets.PendingReplaces` | sn_cli/src/acc_packet.rs:854-880 | the nodes written to a folder name exactly the entries of items that changed or went |
| `AccountPackets.PendingIsFreshLayer` | sn_cli/src/acc_packet.rs:854-880 | the nodes of a scan do not name each other and, if those of new and changed items are new to the folder register, nothing names them |
| `AccountPackets.FoldersMirrorDiskIff` | sn_cli/src/acc_packet.rs:578-624 | once merged, a folder shows exactly the items its directory holds, if and only if the nodes of its new and changed items are new to its register |
| `AccountPackets.FreshNodesMirror` | sn_cli/src/acc_packet.rs:578-624 | with new nodes, kept items show with their entry and new ones with theirs |
| `AccountPackets.OldNodeIsHidden` | sn_cli/src/acc_packet.rs:578-624 | a node of a new or changed item that the register has already was superseded since |
| `AccountPackets.SyncKeepsMirrorIff` | sn_cli/src/acc_packet.rs:262-346 | what a sync leaves recorded makes the folders mirror the tracking again, which the next sync relies on, if and only if the nodes were new, whatever happens to the disk in between |
| `AccountPackets.ReAddedFileIsMissed` | sn_cli/src/acc_packet.rs:469-543 | a public file that one sync removes and a later one finds back unchanged is not shown by its folder |
| `AccountPackets.OneFileIsMissed` | sn_cli/src/acc_packet.rs:469-543 | an instance: a folder of one file, which is removed, synced, put back and synced again |
| `AccountPackets.MergedIsClosed` | sn_cli/src/acc_packet.rs:674-753 | merging the nodes of a scan leaves no orphan in the folder |
| `AccountPackets.DirVisited` | sn_cli/src/acc_packet.rs:578-624 | after visiting one more directory the scan has reported and written exactly what is due for the items visited |
| `AccountPackets.FileReported` | sn_cli/src/acc_packet.rs:469-543 | visiting one file reports exactly a new or changed one |
| `AccountPackets.FileVisited` | sn_cli/src/acc_packet.rs:469-543 | after visiting one more file the scan has reported and written exactly what is due for the items visited |
| `AccountPackets.TrackedVisited` | sn_cli/src/acc_packet.rs:545-571 | visiting one tracked item reports exactly one that went |
| `AccountPackets.AccountPacket.constructor` | sn_cli/src/acc_packet.rs:126-147 | a fresh packet tracks nothing |
| `AccountPackets.AccountPacket.ReadFoldersHierarchy` | sn_cli/src/acc_packet.rs:578-624 | every directory becomes a folder with its known or drawn address; exactly the unknown ones are reported |
| `AccountPackets.AccountPacket.AddChunkedFiles` | sn_cli/src/acc_packet.rs:469-543 | exactly the new and changed files are reported and written, in the order of the files |
| `AccountPackets.AccountPacket.FindRemoved` | sn_cli/src/acc_packet.rs:545-571 | in any order of the tracked items, exactly those that went are reported, after all other mutations |
| `AccountPackets.AccountPacket.ScanFilesAndFoldersForChanges` | sn_cli/src/acc_packet.rs:455-574 | one mutation per difference, none twice, removals last, and for each directory exactly the nodes to write |
| `AccountPackets.AccountPacket.RecordMutations` | sn_cli/src/acc_packet.rs:288-303 | the metadata directory becomes the old one with the mutations applied in order |
| `AccountPackets.AccountPacket.ReadTrackingInfo` | sn_cli/src/acc_packet/change_tracking.rs:138-157 | the listing by path agrees with the metadata directory when no two files name one path |
| `AccountPackets.TrackedIsRecorded` | sn_cli/src/acc_packet.rs:288-308 | without clobbering, the reloaded tracking is the old one for unchanged items and the new one for all others of the tree, and nothing else |
| `AccountPackets.AccountPacket.SyncLocally` | sn_cli/src/acc_packet.rs:262-346 | after scan, record and reload the tracking equals the tree if and only if the names hold for the order of the files, always with distinct names; then a rescan reports nothing and the state is what the next sync relies on |
| `DataMapPacking.LevelRoundTrip` | autonomi/src/self_encryption.rs:82-88 | under every encoding of data maps that can be decoded, an encoded level decodes to itself, tag included |
| `DataMapPacking.ChunkRoundTrip` | sn_protocol/src/storage/chunks.rs:66-79 | a serialised chunk of up to four gigabytes deserialises to itself |
| `DataMapPacking.ChunkIsNoLevel` | autonomi/src/client/data.rs:149-174 | under every encoding, a serialised chunk never decodes as a data map level |
| `DataMapPacking.LevelsShrink` | autonomi/src/self_encryption.rs:52-80 | under every encoding that takes a bounded number of bytes per chunk, each additional level is strictly smaller than the one it replaces |
| `DataMapPacking.CuttingIsValid` | autonomi/src/self_encryption.rs:32-44 | cutting data in three or at the chunk size is an encryption, with an encoding, that meets all assumptions |
| `DataMapPacking.PackOneLevel` | autonomi/src/self_encryption.rs:52-80 | one turn of the loop moves the pieces of one level to the chunks and goes on with a smaller content |
| `DataMapPacking.PackDataMap` | autonomi/src/self_encryption.rs:52-80 | the loop ends for every data map, with a chunk that fits and the pieces of all levels |
| `DataMapPacking.FetchFromDataMap` | autonomi/src/client/data.rs:130-146 | fetches the chunks of a map in order and decrypts them, or reports the first missing one |
| `DataMapPacking.UnpackChunk` | sn_client/src/files/download.rs:477-496 | follows the levels, unwrapping a chunk at each |
| `DataMapPacking.FetchFromDataMapChunk` | autonomi/src/client/data.rs:149-174 | follows the levels, taking each content for the next level |
| `DataMapPacking.DataComesBack` | autonomi/src/client/data.rs:130-146 | data whose chunks are stored is read back through its map |
| `DataMapPacking.UnpackUndoesPack` | sn_client/src/files/download.rs:477-496 | following a packed chunk leads back to the level that was packed |
| `DataMapPacking.DataMapIsRecovered` | sn_client/src/files/download.rs:477-496 | however many levels it took, the original data map is found |
| `DataMapPacking.LastLevel` | autonomi/src/self_encryption.rs:52-80 | the published chunk of a map that did not fit is an additional level whose pieces were all returned |
| `DataMapPacking.GetSucceedsIff` | autonomi/src/client/data.rs:149-174 | the data comes back if and only if its map fitted in one chunk; otherwise the result is an invalid data map |
| `DataMapPacking.Encrypt` | autonomi/src/self_encryption.rs:32-44 | fails exactly for fewer than three bytes; otherwise returns the published chunk and every other chunk |
| `DataMapPacking.UploadedIsStored` | autonomi/src/client/data.rs:120-127 | uploading chunks with distinct addresses stores each and nothing else |
| `DataMapPacking.FileComesBack` | autonomi/src/self_encryption.rs:32-44 | encrypt, upload and follow back gives the same bytes for data of any size |
| `DataMapPacking.LargeDataIsNotRead` | autonomi/src/client/data.rs:149-174 | data of four pieces, stored whole, whose map does not fit in a chunk and which this client cannot read |
| `BetaRewards.UnknownKeyInjective` | sn_auditor/src/dag_db.rs:538-543 | two unknown buckets of one spelling belong to one hash |
| `BetaRewards.Spend.Owner` | sn_auditor/src/dag_db.rs:488-536 | the owner is the first of the two decrypted names that is registered, or else the first |
| `BetaRewards.CreditAdds` | sn_auditor/src/dag_db.rs:509-543 | crediting adds exactly the payment |
| `BetaRewards.MoveOneConserves` | sn_auditor/src/dag_db.rs:682-696 | moving an unknown bucket to a name loses and invents no payment, also when the name had payments already |
| `BetaRewards.StepConserves` | sn_auditor/src/dag_db.rs:420-545 | no event loses or invents a payment |
| `BetaRewards.NothingLostNothingInvented` | sn_auditor/src/dag_db.rs:664-699 | in every interleaving the payments on file are exactly those ever credited |
| `BetaRewards.PaymentsAreKept` | sn_auditor/src/dag_db.rs:664-699 | a payment on file stays on file through any later events |
| `BetaRewards.SettledInvariant` | sn_auditor/src/dag_db.rs:664-699 | a registered hash has an unknown bucket only while one of its registrations is between its two locked phases |
| `BetaRewards.NoUnknownLeftBehind` | sn_auditor/src/dag_db.rs:664-699 | whenever no registration is between its phases, a registered participant has an unknown bucket only if some participant is named like it |
| `BetaRewards.NoneLeftBehindIff` | sn_auditor/src/dag_db.rs:664-699 | with participants from a set of names, no run leaves an unknown bucket of a registered one behind, if and only if none of the names is spelled like the unknown bucket of one of them |
| `BetaRewards.ImpostorLeavesOneBehind` | sn_auditor/src/dag_db.rs:682-696 | a participant named like the unknown bucket of another leaves one behind |
| `BetaRewards.StepAttributes` | sn_auditor/src/dag_db.rs:420-545 | every event keeps each payment with its owner, under its name or in its unknown bucket |
| `BetaRewards.AttributedInvariant` | sn_auditor/src/dag_db.rs:664-699 | in every interleaving name and unknown bucket together hold exactly what was credited to an owner |
| `BetaRewards.SettledBucketIsExact` | sn_auditor/src/dag_db.rs:664-699 | once settled, the bucket of a participant is exactly what was credited to it, before, during or after its registration |
| `BetaRewards.BucketsExactIff` | sn_auditor/src/dag_db.rs:664-699 | with participants from a set of names, every settled bucket of every run is exact, if and only if none of the names is spelled like the unknown bucket of a hash other than its own |
| `BetaRewards.SpendDagDb.constructor` | sn_auditor/src/dag_db.rs:123-130 | the books start empty |
| `BetaRewards.SpendDagDb.ProcessSpend` | sn_auditor/src/dag_db.rs:485-544 | credits the owner the foundation key or else the default key finds; nothing for other spends |
| `BetaRewards.SpendDagDb.AddTo` | sn_auditor/src/dag_db.rs:515-519 | adds one payment to one bucket |
| `BetaRewards.SpendDagDb.AddNewParticipants` | sn_auditor/src/dag_db.rs:668-677 | first phase: files every name under its hash |
| `BetaRewards.SpendDagDb.InitializePayments` | sn_auditor/src/dag_db.rs:679-697 | second phase: moves the unknown buckets of the new names one by one |
| `BetaRewards.SpendDagDb.MoveToName` | sn_auditor/src/dag_db.rs:682-695 | moves one unknown bucket and merges what the name already had |
| `UtxoCrawl.BacksOff` | sn_client/src/audit/dag_crawling.rs:210-240 | at least one interval passes after a failure; for small outputs not found it grows by eight intervals each time |
| `UtxoCrawl.TurnKeepsOnce` | sn_auditor/src/dag_db.rs:308-375 | a turn of the loop leaves no address both fetched and pending |
| `UtxoCrawl.TurnLearns` | sn_auditor/src/dag_db.rs:308-375 | a turn forgets no address and learns of exactly the outputs of the spends it fetched |
| `UtxoCrawl.NeverBoth` | sn_auditor/src/dag_db.rs:308-375 | at every loop head of every run no address is both fetched and pending |
| `UtxoCrawl.KnownForEver` | sn_auditor/src/dag_db.rs:308-375 | what was known stays fetched or pending for ever, and what was fetched stays fetched |
| `UtxoCrawl.NoOutputIsForgotten` | sn_auditor/src/dag_db.rs:371-375 | an output of any fetched spend is from then on fetched or pending |
| `UtxoCrawl.KnownWasLearnt` | sn_auditor/src/dag_db.rs:371-375 | every known address was there at the start or is an output of a spend fetched since |
| `UtxoCrawl.FetchedOnlyOnce` | sn_auditor/src/dag_db.rs:364-367 | no address is asked for again after it was fetched |
| `UtxoCrawl.PausesBetweenAttempts` | sn_auditor/src/dag_db.rs:308-375 | over every run, an address that failed is asked for again only after the interval, with one failure more, unless a fetched spend names it meanwhile |
| `UtxoCrawl.AskedInTime` | sn_auditor/src/dag_db.rs:308-375 | over every run, an address just found is asked for at once and a pending one at the latest by the first turn after its time |
| `UtxoCrawl.CollectExpired` | sn_auditor/src/dag_db.rs:309-321 | adds exactly the expired addresses to those to get |
| `UtxoCrawl.Auditor.constructor` | sn_auditor/src/dag_db.rs:231-240 | the crawl starts from the genesis outputs, all pending |
| `UtxoCrawl.Auditor.CrawlOnce` | sn_auditor/src/dag_db.rs:308-375 | the loop body does one turn |
| `UtxoCrawl.Auditor.Track` | sn_auditor/src/dag_db.rs:371-375 | exactly the found addresses that were not fetched are got next, as new |
| `PeerQuality.RetainedIsSuffix` | sn_networking/src/cmd.rs:851-852 | what is retained are exactly the entries younger than 300 seconds, which are the last ones |
| `PeerQuality.KeptIsSuffix` | sn_networking/src/cmd.rs:851-858 | after dropping old entries and making room, at most nine of the newest remain |
| `PeerQuality.NewIff` | sn_networking/src/cmd.rs:860-870 | a report is new exactly from eleven seconds after the last one kept |
| `PeerQuality.GoodPeersHaveFewIssues` | sn_networking/src/cmd.rs:854-858 | without three issues of any kind there are ten at most |
| `PeerQuality.ObserveKeeps` | sn_networking/src/cmd.rs:842-888 | every report keeps the record spaced, within one window, at most ten long, and bad exactly with three of a kind |
| `PeerQuality.BecomesBadIff` | sn_networking/src/cmd.rs:860-887 | a peer becomes bad exactly when an issue more than ten seconds after the last is the third of its kind on record |
| `PeerQuality.ThirdIsMissedIff` | sn_networking/src/cmd.rs:854-887 | a third issue of a kind within 300 seconds is missed exactly when the list is full and the entry dropped is of that kind |
| `PeerQuality.CycledRun` | sn_networking/src/cmd.rs:842-888 | ten reports, eleven seconds apart and cycling through the five kinds, are all on record and the peer is not bad |
| `PeerQuality.MissedThird` | sn_networking/src/cmd.rs:854-887 | a run of eleven reports in which the third bad quote within two minutes leaves the peer good |
| `PeerQuality.JudgedFairly` | sn_networking/src/cmd.rs:842-933 | over every timed run each record is well kept and a peer was notified once if bad and never otherwise |
| `PeerQuality.BadForGood` | sn_networking/src/cmd.rs:849-850 | once bad, a peer stays bad and its record is frozen |
| `PeerQuality.OthersDoNotMatter` | sn_networking/src/cmd.rs:842-844 | the judgement of a peer depends on the reports about it alone |
| `PeerQuality.EntriesWereReported` | sn_networking/src/cmd.rs:868-870 | every entry on record is a report of the run |
| `PeerQuality.BadMeansThreeReports` | sn_networking/src/cmd.rs:872-887 | a bad peer had three reports of one kind, each at least 11 seconds after the one before, all within 300 seconds |
| `PeerQuality.CredibleAdvance` | sn_evm/src/data_payments.rs:207-260 | a quote that passes and is not older claims less than the elapsed time plus eleven seconds of new live time |
| `PeerQuality.HonestQuotesPass` | sn_evm/src/data_payments.rs:207-260 | two quotes with true live times and payments always agree, whichever comes first |
| `PeerQuality.HandleAdvances` | sn_networking/src/cmd.rs:935-949 | no event takes the quote on record back |
| `PeerQuality.HistoryAdvances` | sn_networking/src/cmd.rs:935-949 | over any run the recorded quote is monotone in time, live time and payments, and live time grows by less than the elapsed time plus eleven seconds per replacement |
| `PeerQuality.BadHistoryIsFrozen` | sn_networking/src/cmd.rs:802-813 | the history of a bad peer never changes again |
| `PeerQuality.HonestPeersAreNotFlagged` | sn_networking/src/cmd.rs:935-949 | over every run a peer that quotes truthfully and never ahead of the clock is not reported for its quotes |
| `PeerQuality.IntervalPaces` | sn_networking/src/cmd.rs:951-1011 | an interval keeps requests to one peer at least 45 seconds apart |
| `PeerQuality.IntervalReaches` | sn_networking/src/cmd.rs:951-1011 | an interval asks exactly those of the seven closest peers that were not asked within 45 seconds, if there are records |
| `PeerQuality.RequestsArePaced` | sn_networking/src/cmd.rs:951-1011 | over every run two requests to one peer are at least 45 seconds apart |
| `PeerQuality.SwarmDriver.constructor` | sn_networking/src/driver.rs:694-696 | a driver starts without records, quotes or targets |
| `PeerQuality.SwarmDriver.RecordNodeIssue` | sn_networking/src/cmd.rs:842-933 | updates the record as observed, removes a bad peer from the routing table, and queues one notification exactly when it turns bad |
| `PeerQuality.SwarmDriver.Judge` | sn_networking/src/cmd.rs:842-888 | computes the new record and the kind that made a peer bad |
| `PeerQuality.SwarmDriver.Accumulated` | sn_networking/src/cmd.rs:872-887 | finds a kind with three entries exactly if there is one |
| `PeerQuality.SwarmDriver.VerifyPeerQuote` | sn_networking/src/cmd.rs:935-949 | keeps, replaces or reports a quote against the history |
| `PeerQuality.SwarmDriver.QuoteVerification` | sn_networking/src/cmd.rs:802-813 | handles the quotes one by one, skipping bad peers |
| `PeerQuality.SwarmDriver.TryIntervalReplication` | sn_networking/src/cmd.rs:951-1011 | sends to and remembers exactly the chosen peers |
| `WalletPayments.SendSpends` | sn_client/src/wallet.rs:857-926 | succeeds exactly when every spend was accepted; double spends are reported, all of them, before other failures |
| `WalletPayments.GivesUpAfter` | sn_client/src/wallet.rs:753-780 | the retries give up after exactly two rounds more than the maximum |
| `WalletPayments.RetryIff` | sn_client/src/wallet.rs:753-780 | the retries succeed exactly when nothing was pending or one of the first eleven rounds does; what stays pending is all or nothing |
| `WalletPayments.GoOnMeansClear` | sn_client/src/wallet.rs:753-780 | going on is allowed only with nothing pending |
| `WalletPayments.ClearButRefusedIff` | sn_client/src/wallet.rs:753-780 | the wallet is clear yet refused exactly when the twelfth round is the first to succeed |
| `WalletPayments.AcceptedTooLate` | sn_client/src/wallet.rs:753-780 | a network that accepts at the twelfth attempt only |
| `WalletPayments.AfterKeeps` | sn_client/src/wallet.rs:543-608 | one payment or send keeps every note in one place, forgets none, and takes inputs that never were any; a pending spend stays pending or is confirmed |
| `WalletPayments.PendingLeavesWhole` | sn_client/src/wallet.rs:753-780 | the pending spends leave together if and only if one of the twelve attempts had them all accepted; otherwise nothing changes |
| `WalletPayments.RunKeeps` | sn_client/src/wallet.rs:543-608 | over every run of payments and sends the disk tells of, every note is in one place, none is forgotten, and what is pending is from then on pending or confirmed |
| `WalletPayments.NoInputTwice` | sn_client/src/wallet.rs:543-608 | over every run no note is an input of two transactions |
| `WalletPayments.LostAreUnacceptedSends` | sn_client/src/wallet.rs:1118-1157 | over every run the notes no record is left of are exactly the inputs of the sends that were not accepted whole |
| `WalletPayments.UnacceptedSendLosesNote` | sn_client/src/wallet.rs:1118-1157 | a wallet of one note that a send without an answer loses |
| `WalletPayments.WalletClient.constructor` | sn_transfers/src/wallet/hot_wallet.rs:59-68 | a wallet starts with nothing pending |
| `WalletPayments.WalletClient.Restart` | sn_transfers/src/wallet/hot_wallet.rs:760-797 | loading from disk changes nothing the disk tells; pending spends that were not stored are lost |
| `WalletPayments.WalletClient.ClearConfirmedSpendRequests` | sn_transfers/src/wallet/hot_wallet.rs:352-365 | all pending spends become confirmed, in memory and on disk |
| `WalletPayments.WalletClient.ResendPendingTransactions` | sn_client/src/wallet.rs:612-624 | the pending spends are confirmed together or all stay |
| `WalletPayments.WalletClient.ResendPendingTransactionUntilSuccess` | sn_client/src/wallet.rs:753-780 | does what the retries say, in that many rounds; ends with nothing pending or an error |
| `WalletPayments.WalletClient.LocalSend` | sn_transfers/src/wallet/hot_wallet.rs:441-472 | takes the inputs from the available notes on disk and makes them pending in memory |
| `WalletPayments.WalletClient.SendPending` | sn_client/src/wallet.rs:563-600 | the pending spends are confirmed together, or exactly the double-spent ones are dropped and the rest is stored on disk |
| `WalletPayments.WalletClient.PayForRecords` | sn_client/src/wallet.rs:543-608 | the disk tells afterwards exactly what the payment does to the books, for each of the four results, and nothing is pending in memory only |
| `WalletPayments.WalletClient.Send` | sn_client/src/wallet.rs:1118-1157 | the disk tells afterwards exactly what the send does to the books, for each of the four results; the spends of an unaccepted send are in memory only |
| `QuotePayments.CoversRoundingDown` | evmlib/src/wallet.rs:230-234 | the approval covers any split when royalties are rounded down part by part, if and only if it fits in 256 bits |
| `QuotePayments.LargestIsNotCovered` | evmlib/src/wallet.rs:230-234 | the largest payment overflows the approval |
| `QuotePayments.SliversAreWorst` | evmlib/src/wallet.rs:230-234 | the worst split into k parts above zero |
| `QuotePayments.CoversRoundingUpIff` | evmlib/src/wallet.rs:230-234 | the approval covers every split into k parts rounded up if and only if it fits in 256 bits and k + (total - k) / 10 is at most twice the royalties |
| `QuotePayments.NineIsNotCovered` | evmlib/src/wallet.rs:230-234 | a single payment of nine is not covered when rounding up |
| `QuotePayments.FewPartsAreCovered` | evmlib/src/wallet.rs:230-234 | at most a tenth of the total in parts is covered when rounding up, if and only if the approval fits in 256 bits |
| `QuotePayments.PayForQuotes` | evmlib/src/wallet.rs:224-268 | the receipts are exactly those of the batches before the first failure, each quote with the transaction of its last payment; it succeeds exactly when the approval and every batch do, and then every payment has a receipt |
| `QuotePayments.PayBatches` | evmlib/src/wallet.rs:250-268 | pays batches of 512 in order until one fails |
| `QuotePayments.Total` | evmlib/src/wallet.rs:230-230 | sums the amounts in 256-bit arithmetic |
| `QuotePayments.PayForQuote` | evmlib/src/wallet.rs:87-97 | a single payment that succeeds always has a receipt |
| `TokenAmount.RemainderIsExact` | sn_evm/src/amount.rs:98-113 | digits after the dot are read as exactly the fraction of a token they write |
| `TokenAmount.ReadIsExact` | sn_evm/src/amount.rs:83-116 | text that is read is worth exactly what it writes, up to the wrap-around of the last addition |
| `TokenAmount.ReadIffWhole` | sn_evm/src/amount.rs:98-113 | digits after the dot are read if and only if they write a whole number of attos |
| `TokenAmount.TrailingZero` | sn_evm/src/amount.rs:99-99 | trailing zeros after the dot change nothing |
| `TokenAmount.ReadIsScaled` | sn_evm/src/amount.rs:83-116 | text u.f reads as u times 10^18 plus f scaled to eighteen places |
| `TokenAmount.WrittenParts` | sn_evm/src/amount.rs:119-125 | written text is the whole tokens and the rest padded to nine digits |
| `TokenAmount.ReadBack` | sn_evm/src/amount.rs:83-125 | reading back gives the whole tokens, and the rest scaled by the digits missing to eighteen |
| `TokenAmount.RoundTripIff` | sn_evm/src/amount.rs:83-125 | an amount survives writing and reading exactly when its part below one token is zero or at least 10^17 |
| `TokenAmount.OneAttoIsMisread` | sn_evm/src/amount.rs:83-125 | a single atto does not survive |
| `KeySequences.ExtractModifiers` | node-launchpad/src/config.rs:260-283 | the loop ends for every text and takes off all leading modifiers |
| `KeySequences.ExtractAll` | node-launchpad/src/config.rs:260-283 | any modifiers in front, in any order and repeated, are united |
| `KeySequences.OrderDoesNotMatter` | node-launchpad/src/config.rs:260-283 | the same modifiers in another order read alike |
| `KeySequences.TextIs` | node-launchpad/src/config.rs:335-396 | an event is written as its modifiers in the order ctrl, shift, alt and its key |
| `KeySequences.ReadBack` | node-launchpad/src/config.rs:254-258 | reading back a written event gives the lower-case key with the written modifiers |
| `KeySequences.CharReadsBackIff` | node-launchpad/src/config.rs:323-329 | a character survives exactly if it is one byte and its case matches shift |
| `KeySequences.FunctionKeysDoNotReadBack` | node-launchpad/src/config.rs:352-355 | no written function key can be read |
| `KeySequences.FunctionKeysAreRead` | node-launchpad/src/config.rs:307-318 | "f" and a number from one to twelve reads as that function key |
| `KeySequences.EventRoundTripIff` | node-launchpad/src/config.rs:254-396 | an event survives writing and reading if and only if it is canonical |
| `KeySequences.BracketedSplits` | node-launchpad/src/config.rs:409-420 | splitting a sequence at the separators gives back the texts between the brackets, the first and the last with an outer bracket |
| `KeySequences.InnerSplits` | node-launchpad/src/config.rs:409-420 | the same for what follows the first separator |
| `KeySequences.MiddleRead` | node-launchpad/src/config.rs:411-419 | a key between two others is read back exactly if it is canonical, not ">" and not a plain "<" |
| `KeySequences.LastRead` | node-launchpad/src/config.rs:411-419 | the last key is read back exactly if it is canonical and not a plain "<" |
| `KeySequences.SequenceRoundTripIff` | node-launchpad/src/config.rs:398-423 | a sequence survives writing and reading if and only if it is not empty, its keys are canonical, as many are ">" as "<", a ">" is first or last and a plain "<" is first |
| `KeySequences.LoneBracketIsNotRead` | node-launchpad/src/config.rs:398-423 | the key "<" alone does not survive in a sequence, though it does as an event |
| `PortAllocation.NextFree` | node-launchpad/src/node_mgmt.rs:336-339 | passes over exactly the used ports; there is none only when all up to the largest are used |
| `PortAllocation.TryNext` | node-launchpad/src/node_mgmt.rs:335-425 | one turn tries the next free port, and keeps the order, the counts and what was passed over |
| `PortAllocation.AddNodes` | node-launchpad/src/node_mgmt.rs:325-439 | tries strictly increasing free ports in range, at most five times per requested node, skips no free port, reports exactly one error exactly when nodes are missing, and overflows exactly when, up to port 65535, all free ports were tried and 65535 was tried or the search goes on |
| `PortAllocation.NeverOverflowsIff` | node-launchpad/src/node_mgmt.rs:325-439 | no outcome of the attempts overflows the port number, if and only if the range ends below 65535, nothing is to be added, or there are more free ports than five per node, counting 65535 also when in use |
| `PortAllocation.SlowRunMustOverflow` | node-launchpad/src/node_mgmt.rs:325-439 | otherwise a run whose every fifth attempt succeeds overflows |

## Left out

- Cryptography: signatures, key derivation and encryption are validity predicates or ideal functions.
- Self-encryption itself: the crate is represented by a round trip, a minimum of three bytes and a bound on the number of pieces; data maps are encoded by any function that can be undone and takes at most five bytes and a fixed number per chunk. The index and the sizes of a chunk in the map are not modelled.
- DataMapPacking.UnpackChunk: takes a bound on the rounds, because a store that is not the result of packing can make the loop endless; the theorems hold for every bound above the number of levels.
- DataMapPacking.FetchFromDataMapChunk: takes the same bound.
- DataMapPacking.ChunkRoundTrip: does not cover values of four gigabytes or more, whose length the serialisation format cannot hold.
- Registers: operation signatures and the history log; a merge of two replicas that is refused by permissions is not modelled.
- Account packet: downloading, the upload half of a sync, files that cannot be chunked, path canonicalisation errors, and the limit of 1024 entries while a scan writes to its folders. The `.safe` directory is not part of the tree.
- Folders: payment for and upload of metadata chunks.
- Rewards: the counters, the royalties map and the double-spend report. A participant may have any name; theorems say which names they exclude.
- Crawl: one reading of the clock per turn for the next attempts, the `dag-collection` branch, the files written per spend, and which of several amounts is kept when two spends found in one turn name the same output.
- PeerQuality: one reading of the clock per call; the blocklist round trip after a notification; quote fields that are only logged.
- WalletPayments: file errors, other processes that use the same wallet, encrypted wallets, the refusal of a zero amount, and the deposit of the new note. How a transaction chooses its inputs is a parameter.
- WalletPayments.WalletClient.Send: the wallet object is used up by the call, so the statement is about the disk; the files of the notes, from which loading notes again may recover inputs, are not modelled.
- TokenAmount: the underscores and radix prefixes the number parser also accepts; amounts are digits.
- KeySequences: key kinds and states, and the keys that are written as nothing are one case.
- PortAllocation.AddNodes: an overflow of the port number ends the run, as in a build with overflow checks.
- Node management, the terminal interface, the faucet, logging, metrics, transport and build scripts: nothing hard to state.
