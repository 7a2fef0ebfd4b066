# Verified model of the Geth consensus tutorial, parts 3 and 4

Two small distributed systems drive Geth through the Engine API. This project models both in Dafny and
proves what they keep in every run: under every pattern of lost calls, of calls that take effect although
the caller sees an error, of crashes, and of interleavings.

* **Part 4, CometBFT application.** Every validator has a cached head, a persisted head and its own Geth.
  ProcessProposal validates; FinalizeBlock does not validate again.
* **Part 3, leader and members.** Nodes compete for a Redis lease; the holder builds, stores and publishes
  blocks; standbys and members page through its store over HTTP and replay every block on their own Geth.

## How the model is built

| file | what it holds |
|---|---|
| `Outcomes.dfy` | options, results, and the three ways a remote call can end (`Fault`) |
| `Blocks.dfy` | block hashes built from contents, payloads, execution heads, 64-bit wrap-around |
| `Geth.dfy` | Geth behind the Engine API, shared by both systems |
| `ConsensusApp.dfy` | the ABCI application |
| `Agreement.dfy` | many validators around one decided chain, with crashes and restarts |
| `Proposals.dfy` | coherence, absence of side effects, what FinalizeBlock leaves to ProcessProposal |
| `Halting.dfy` | accepted blocks that stop the chain, and when it can go on |
| `CrashReplay.dfy` | crashes inside FinalizeBlock and the replay that follows |
| `RedisClient.dfy`, `LeaderElection.dfy` | the lease key, the election, all instances step by step |
| `BuildState.dfy`, `StateManager.dfy` | the build state in Redis with its local fallback |
| `PayloadStore.dfy`, `Api.dfy` | the table with two unique keys, the HTTP handlers, paging |
| `Syncer.dfy`, `Replication.dfy` | the syncer, prefix replication, convergence, backoff |
| `BlockBuilder.dfy`, `Retrying.dfy` | two-phase production, retried engine calls |
| `Production.dfy`, `Publication.dfy` | whole leadership terms, and what they publish |
| `Contents.dfy` | what a built block says, in both systems |
| `Gaps.dfy` | when a term leaves a gap in the leader's store |
| `EndToEnd.dfy` | from the leader's builder to the member's Geth, with gaps or without |
| `LeaderRounds.dfy` | the loop's ticks as runs of the election, the build state after a round |
| `LeaderLoop.dfy`, `Takeover.dfy` | the standby/leader loop and the takeover from a store without a gap |
| `Forks.dfy` | when a takeover goes on from what the node has followed, and when it forks |

The source's objects are classes whose methods follow the Go code branch by branch. What a method does is
stated outright: the new state and the result are a function of the old state, the arguments and the
outcomes of the remote calls. The lemmas are about these functions and about runs of them.

Assumptions about the environment, all in `Geth.dfy`, `RedisClient.dfy` and `PayloadStore.dfy`:

* A hash is the block it commits to, beacon root (EIP-4788) and requests (EIP-7685) included. Whether a
  block executes is a function of the block (`Body.sound`). Payloads carry no blob transactions.
* NewPayload judges a block whose parent is known, and answers SYNCING otherwise. ForkchoiceUpdated moves the
  head to a known block, may skip an ancestor of the head, and does nothing for an unknown block
  (Engine API `paris.md`, section "engine_forkchoiceUpdatedV1").
* Every remote call is delivered, lost, or takes effect without acknowledgement; a call on a cancelled
  context is lost. Redis scripts and commands are atomic. SQL statements are atomic.
* CometBFT resumes at the height Info reports, calls InitChain if that is 0, and stops when FinalizeBlock
  fails. A block is decided only if a correct validator at that height accepted it.
* msgpack, base64 and JSON are codecs that give back what was put in. Every hash has its own text, which begins
  with 0x (`Api.HashTexts`).
* Instance ids are unique (README of part 3). The clock of the lease is a natural number of milliseconds.

Where code and documentation differ, the model follows the code: part 3's README promises a backoff of 200ms
to 30s, but no delay exceeds 25.6s (`Replication.BackoffStaysBelowTheCap`); the comment at
03-member-nodes/cmd/main.go:406-408 promises that a takeover does not fork, which holds for a node that has never
led and has followed a store without a gap (`Takeover.LinearTakeover`), and otherwise exactly under the conditions
of `Forks.FirstTakeoverExtendsIff` and `Forks.TakeoverExtendsTipIff`; and InitChain is not only "called once at genesis"
(`CrashReplay.FirstBlockReplay`).

Five things the code does not give, each with an input that shows it and the exact condition under which it does:

* Two instances can lead at once if a tick takes a whole lease: `LeaderElection.TwoLeadersWithoutTimeliness`, and
  exactly then: `LeaderElection.OneLeaderIffTicksFit`.
* A lost save leaves a gap below later rows: `Gaps.LostSaveLeavesGap`, and exactly then:
  `Gaps.GapFreeIffMovesStored`. Members count the rows above the gap as synced while their Geth stays below it
  (`Replication.GethStaysBelowGap`, `EndToEnd.MemberReachesTipIff`).
* A first takeover can fork after a lost save: `Forks.FirstTakeoverCanFork`, and exactly then:
  `Forks.FirstTakeoverExtendsIff`.
* A later takeover can fork because the builder keeps its own head: `Forks.SecondTakeoverCanFork`, and exactly then:
  `Forks.TakeoverExtendsTipIff`.
* An accepted and decided block can halt the chain, by being unsound (`Halting.HaltIsReachable`) or by having the last
  timestamp there is (`Halting.LastTimestampIsReachable`), and exactly then, as long as there are heights left:
  `Halting.ChainContinuesIff`.

## Model

| member | source | states |
|---|---|---|
| `ConsensusApp.GethConsensusApp.Info` | 04-cometbft-consensus/pkg/app/app.go:67-88 | A loaded head becomes the cached head and is reported; otherwise height 0 is reported and nothing changes. |
| `ConsensusApp.GethConsensusApp.InitChain` | 04-cometbft-consensus/pkg/app/app.go:91-118 | Geth's present head becomes the cached head and, unless the save is lost, the persisted head. |
| `ConsensusApp.GethConsensusApp.PrepareProposal` | 04-cometbft-consensus/pkg/app/app.go:121-158 | Reads the head if unset, builds on it, wraps the payload with its requests; all error paths and their effects. |
| `ConsensusApp.GethConsensusApp.BuildBlock` | 04-cometbft-consensus/pkg/app/app.go:280-325 | The forkchoice update with attributes, the status and payload id checks, and the payload fetched. |
| `ConsensusApp.GethConsensusApp.ProcessProposal` | 04-cometbft-consensus/pkg/app/app.go:161-186 | Accepts exactly a decodable payload that is the direct successor of the cached head; changes nothing. |
| `ConsensusApp.GethConsensusApp.ValidatePayload` | 04-cometbft-consensus/pkg/app/app.go:329-348 | Passes exactly the next height, the head as parent and a later timestamp, and only with a head. |
| `ConsensusApp.GethConsensusApp.FinalizeBlock` | 04-cometbft-consensus/pkg/app/app.go:189-262 | The three durable effects in order and what is left behind by a failure at each of them. |
| `ConsensusApp.GethConsensusApp.LoadExecutionHead` | 04-cometbft-consensus/pkg/app/app.go:351-366 | The persisted head, or nothing if there is none or it cannot be read. |
| `ConsensusApp.GethConsensusApp.SaveExecutionHead` | 04-cometbft-consensus/pkg/app/app.go:369-377 | Only the persisted head changes. |
| `Agreement.ValidatorsAgree` | 04-cometbft-consensus/pkg/app/app.go:161-262 | In every run with crashes, restarts and failing calls, the decided payloads form one chain with number equal to height, linked parents and rising timestamps; a running validator at height h holds, cached and persisted, the head of decided block h, if h is at least 1 or nothing is decided; every app hash ever reported is that of the decided block of its height, and FinalizeBlock reports it with one result of code 0 for each of the block's transactions. |
| `Agreement.FinalizeReplies` | 04-cometbft-consensus/pkg/app/app.go:235-261 | Whenever FinalizeBlock succeeds, for any node and block, it returns one result of code 0 for each transaction and the payload's hash as app hash, and the head is cached and persisted. |
| `Agreement.NetworkStepKeeps` | 04-cometbft-consensus/pkg/app/app.go:67-262 | Every single event of the network keeps the invariant behind agreement. |
| `Agreement.FinalizeStepKeeps` | 04-cometbft-consensus/pkg/app/app.go:209-261 | FinalizeBlock on a decided block, failing anywhere, leaves the persisted head at the old or the new block and Geth at that block or its successor. |
| `Agreement.StaleReplayFails` | 04-cometbft-consensus/pkg/app/app.go:209-222 | A validator replayed from height 0 while it already holds a later block refuses the first block and does not change. |
| `Agreement.DecideKeepsChain` | 04-cometbft-consensus/pkg/app/app.go:329-348 | A proposal accepted by one validator at the deciding height extends the decided chain. |
| `Agreement.InitChainKeeps` | 04-cometbft-consensus/pkg/app/app.go:91-118 | InitChain adopts the genesis block or a decided block, never anything else. |
| `Agreement.RestartKeeps` | 04-cometbft-consensus/pkg/app/app.go:67-118 | Info and InitChain after a crash restore a head of the decided chain. |
| `Proposals.Coherence` | 04-cometbft-consensus/pkg/app/app.go:121-186 | Whatever time is supplied, a proposal that is returned is accepted by every validator with the same head; with no failing call one is returned exactly below the 64-bit maximum of height and time. |
| `Proposals.ProposalFinalizes` | 04-cometbft-consensus/pkg/app/app.go:121-262 | Every validator holding the head finalises such a proposal, and its new head directly extends the old one. |
| `Contents.ProposalContents` | 04-cometbft-consensus/pkg/app/app.go:280-325 | What a returned proposal says: the next number, the timestamp max(given time, head time + 1), the zero fee recipient, the head as randomness, parent and beacon root, and the transactions and requests that were found. |
| `Proposals.CoherenceInRuns` | 04-cometbft-consensus/pkg/app/app.go:121-186 | After any run, a running validator accepts what another proposes exactly if both hold the same head; at equal heights they do, if the height is at least 1 or nothing is decided yet. |
| `Proposals.NoSideEffects` | 04-cometbft-consensus/pkg/app/app.go:121-186 | Any number of proposal calls leaves cached head, persisted head and Geth unchanged, and each verdict is that of the untouched node. |
| `Proposals.InfoReportsIff` | 04-cometbft-consensus/pkg/app/app.go:67-88 | Info reports and caches the persisted head exactly if there is one and it can be read. |
| `Proposals.AcceptsIff` | 04-cometbft-consensus/pkg/app/app.go:329-348 | ProcessProposal's verdict in numbers: the next height in 64-bit arithmetic, the head as parent, a later timestamp. |
| `Proposals.PrepareErrors` | 04-cometbft-consensus/pkg/app/app.go:121-158 | Each error of PrepareProposal, exactly when it is returned. |
| `Proposals.FinalizeErrors` | 04-cometbft-consensus/pkg/app/app.go:189-262 | Each error of FinalizeBlock, exactly when it is returned, and what it leaves of the cached and persisted head. |
| `Proposals.FinalizedWithoutRecheck` | 04-cometbft-consensus/pkg/app/app.go:189-262 | Of a finalised payload, the checks of ProcessProposal would have passed exactly if its parent is the node's head. |
| `Proposals.FinalizeAcceptsRival` | 04-cometbft-consensus/pkg/app/app.go:189-262 | FinalizeBlock alone accepts a rival of its own head: agreement really needs ProcessProposal. |
| `Proposals.FinalizesIff` | 04-cometbft-consensus/pkg/app/app.go:189-262 | FinalizeBlock succeeds exactly with a head, a payload, three answered calls, and a payload whose hash is that of its contents and that Geth knows, has no parent for, or finds valid. |
| `Proposals.UnknownParentIsFinalized` | 04-cometbft-consensus/pkg/app/app.go:209-238 | A payload with an unknown parent is finalised: the head moves to a block Geth does not have. |
| `Halting.AcceptedFinalizesIff` | 04-cometbft-consensus/pkg/app/app.go:161-262 | An accepted proposal can be finalised by a validator with the head exactly if its hash is that of its contents under that head, it executes, and its number has not wrapped around. |
| `Halting.UnsoundBlockHalts` | 04-cometbft-consensus/pkg/app/app.go:161-222 | In every run each decided block but the last one carries the hash of its contents and executes; if the last does not, no continuation with any retries and restarts decides anything more or brings any validator to it. |
| `Halting.LastFinalizesIffSound` | 04-cometbft-consensus/pkg/app/app.go:189-262 | A validator that waits for the last decided block with the head before it finalises it, if no call fails, exactly if that block is sound. |
| `Halting.ChainContinuesIff` | 04-cometbft-consensus/pkg/app/app.go:67-262 | After any run, with whatever validators down or behind, some continuation decides another block exactly if the last decided block is sound, its timestamp is below the 64-bit maximum, and CometBFT has a further height. |
| `Halting.LastTimestampIsReachable` | 04-cometbft-consensus/pkg/app/app.go:329-348 | A sound block with timestamp 2^64-1 is accepted, decided and finalised by every validator, and then no continuation decides anything more. |
| `Halting.HaltIsReachable` | 04-cometbft-consensus/pkg/app/app.go:161-186 | ProcessProposal accepts, and the network decides, a block that no Geth accepts. |
| `CrashReplay.CrashesLeaveNoTrace` | 04-cometbft-consensus/pkg/app/app.go:67-88 | From height 2 on, after any number of crashes at any points of FinalizeBlock, Info and replay end in the cached head, persisted head, Geth and app hash of an uninterrupted run. |
| `CrashReplay.ReplayFromPartial` | 04-cometbft-consensus/pkg/app/app.go:189-262 | The same from each of the three states that Geth can be left in. |
| `CrashReplay.FirstBlockReplay` | 04-cometbft-consensus/pkg/app/app.go:91-107 | At height 1, after any number of crashes in FinalizeBlock and InitChain, a restart without failures ends as an uninterrupted run exactly if the crashes left Geth at the genesis block or block 1 persisted; otherwise one more restart does. |
| `CrashReplay.RestartsRemain` | 04-cometbft-consensus/pkg/app/app.go:67-118 | All that such crashes can leave behind, in the database and in Geth. |
| `CrashReplay.FirstBlockReplayCanFail` | 04-cometbft-consensus/pkg/app/app.go:91-107 | The failing case of the first block exists. |
| `Execution.JudgedOnKnownParent` | 04-cometbft-consensus/pkg/app/app.go:211-222 | A payload with a known parent is VALID exactly if its hash is that of its contents under the given beacon root and requests, it extends its parent and it executes. |
| `Blocks.ConversionsRoundTrip` | 03-member-nodes/pkg/blockbuilder/builder.go:249 | Go's conversions between int64 and uint64, as used for timestamps, give back the number. |
| `RedisClient.Client.SetLeaseNX` | 03-member-nodes/pkg/redis/client.go:91-93 | Sets the key only if it is free or expired, with the three outcomes of the call. |
| `RedisClient.Client.RenewLease` | 03-member-nodes/pkg/redis/client.go:52-64 | Renews only the unexpired key of the same instance. |
| `RedisClient.Client.DeleteLease` | 03-member-nodes/pkg/redis/client.go:67-78 | Deletes only the unexpired key of the same instance. |
| `RedisClient.KeyCommands` | 03-member-nodes/pkg/redis/client.go:52-93 | When each of the three commands is granted, for how long, and that a refusal changes nothing. |
| `RedisClient.Client.SetState` | 03-member-nodes/pkg/redis/client.go:81-83 | Stores a value with its expiry. |
| `RedisClient.Client.GetState` | 03-member-nodes/pkg/redis/client.go:86-88 | Returns the unexpired value, or an error. |
| `RedisClient.Client.PublishBlock` | 03-member-nodes/pkg/redis/client.go:39-49 | Appends one entry, with the publisher's clock, to the stream, with the three outcomes of the call. |
| `LeaderElection.Election.TryAcquireOrRenew` | 03-member-nodes/pkg/redis/leaderelection.go:85-121 | The flag and the key after a tick, for every outcome of both commands and whatever other instances do between them. |
| `LeaderElection.Election.Stop` | 03-member-nodes/pkg/redis/leaderelection.go:46-62 | The flag is cleared, and the key is released only by an instance that thought it held it. |
| `LeaderElection.TickRefinesSteps` | 03-member-nodes/pkg/redis/leaderelection.go:85-121 | A call of TryAcquireOrRenew is a run of the step machine of all instances. |
| `LeaderElection.StopRefinesSteps` | 03-member-nodes/pkg/redis/leaderelection.go:46-62 | A call of Stop is a run of the step machine, too, and releases only a key that the instance believed it held and still holds. |
| `LeaderElection.LeaseSafety` | 03-member-nodes/pkg/redis/leaderelection.go:46-121 | With no timing assumption, an instance that reads true holds the unexpired key or got its last grant at least a lease ago; of two that read true one is overdue. |
| `LeaderElection.NextKeepsLease` | 03-member-nodes/pkg/redis/leaderelection.go:46-121 | Every step, late and repeated commands included, keeps the lease invariant. |
| `LeaderElection.AtMostOneLeader` | 03-member-nodes/pkg/redis/leaderelection.go:71-121 | If every tick is shorter than the lease and the ticker keeps its cadence (the next tick begins a renew interval after the last began, or at its end if that is later), then at every point of every run at most one instance reads true, and it is not overdue. |
| `LeaderElection.TwoLeadersWithoutTimeliness` | 03-member-nodes/pkg/redis/leaderelection.go:71-121 | If ticks may take a whole lease, there is a run with this cadence in which two instances read true together. |
| `LeaderElection.OneLeaderIffTicksFit` | 03-member-nodes/pkg/redis/leaderelection.go:10-121 | All runs whose ticks take at most d are free of second leaders exactly if d is shorter than the lease. |
| `LeaderElection.SecondLeaderIff` | 03-member-nodes/pkg/redis/leaderelection.go:85-121 | While one instance reads true, an undisturbed tick of another makes both read true exactly if the key has expired or is the other's already, and never while the first is not overdue. |
| `LeaderElection.BoundedFailover` | 03-member-nodes/pkg/redis/leaderelection.go:10-14 | If the holder stops renewing after a grant, and live instances tick every 2000ms, one of them holds the lease for 5000ms and believes it within 7000ms of that grant. |
| `LeaderElection.FailoverAfterRelease` | 03-member-nodes/pkg/redis/leaderelection.go:46-62 | After a released lease, within 2000ms. |
| `StateManager.RedisStateManager.SaveBlockState` | 03-member-nodes/pkg/state/state.go:81-96 | Redis first; the local copy changes only after success. |
| `StateManager.RedisStateManager.GetBlockBuildState` | 03-member-nodes/pkg/state/state.go:99-116 | The decodable unexpired Redis value, else the local copy. |
| `StateManager.RedisStateManager.ResetBlockState` | 03-member-nodes/pkg/state/state.go:119-127 | The local copy first, whatever Redis does. |
| `StateManager.ReadYourSave` | 03-member-nodes/pkg/state/state.go:81-116 | Whatever the state before, an acknowledged save is what the next read returns, however late and whether Redis answers or not. |
| `StateManager.ReadAfterFailedSave` | 03-member-nodes/pkg/state/state.go:81-116 | A save that reports failure leaves the local copy, and is read back only if Redis has it, answers, and five minutes have not passed. |
| `StateManager.UnreadableFallsBack` | 03-member-nodes/pkg/state/state.go:99-116 | Without a readable, unexpired Redis value a read returns the local copy. |
| `StateManager.ReadYourReset` | 03-member-nodes/pkg/state/state.go:99-127 | After a reset, the next read returns the initial state exactly unless Redis missed the reset and still serves an older, different state. |
| `PayloadStore.Store.SavePayload` | 03-member-nodes/pkg/postgres/store.go:76-89 | Inserts or overwrites the row of its number; a hash that stands under another number or a number out of range fails. |
| `PayloadStore.Store.GetPayloadByNumber` | 03-member-nodes/pkg/postgres/store.go:92-101 | The row of the number, or why there is none: out of range, no connection, no row. |
| `PayloadStore.Store.GetPayloadByHash` | 03-member-nodes/pkg/postgres/store.go:104-113 | A row whose hash has the given text; no row exactly if the query succeeds and none exists; no connection exactly if the call fails. |
| `PayloadStore.Store.GetLatestPayload` | 03-member-nodes/pkg/postgres/store.go:116-125 | The row that comes first in descending order. |
| `PayloadStore.LatestIsMaximum` | 03-member-nodes/pkg/postgres/store.go:116-125 | That row is the maximum of the table, and it is missing exactly if the table is empty. |
| `PayloadStore.Store.GetPayloadsAfter` | 03-member-nodes/pkg/postgres/store.go:128-152 | The first rows above a number in ascending order, up to the limit. |
| `PayloadStore.QueryErrors` | 03-member-nodes/pkg/postgres/store.go:76-152 | Which error a save and each query returns, and exactly when. |
| `PayloadStore.SaveKeepsKeys` | 03-member-nodes/pkg/postgres/store.go:44-89 | A save keeps numbers and hashes unique, and fails and changes nothing exactly in the two cases above. |
| `PayloadStore.SavesKeepKeys` | 03-member-nodes/pkg/postgres/store.go:44-89 | So does any sequence of saves. |
| `PayloadStore.PagingSeesEveryRow` | 03-member-nodes/pkg/postgres/store.go:128-152 | Repeated requests with any limits over a growing table return every row above the start up to the cursor exactly once, ascending, and nothing else. |
| `PayloadStore.ShortPageCatchesUp` | 03-member-nodes/pkg/api/server.go:143-176 | A request that returns fewer rows than its limit has caught up. |
| `PayloadStore.PageIsPrefix` | 03-member-nodes/pkg/postgres/store.go:128-152 | A page is a prefix of all rows above its start and is cut off only by its limit. |
| `Api.Server.HandleGetBlocksAfter` | 03-member-nodes/pkg/api/server.go:126-180 | Parsing with defaults, the status codes, the limit clamped to 1..1000, and a field-by-field copy of the rows. |
| `Api.Server.HandleGetBlock` | 03-member-nodes/pkg/api/server.go:84-124 | Numbers go to the lookup by number, all else to the lookup by the text of the hash; every failure is 404; the other status codes. |
| `Api.ParseFormat` | 03-member-nodes/pkg/api/server.go:137-141 | A printed number is parsed back. |
| `Api.AtoiSigns` | 03-member-nodes/pkg/api/server.go:148-153 | Signed numbers and the 64-bit limits as strconv.Atoi reads them. |
| `Api.LimitOfText` | 03-member-nodes/pkg/api/server.go:143-156 | The page size for any limit: itself from 1 to 1000, 1000 above, 100 when missing, not positive or not a number. |
| `Api.AfterOfText` | 03-member-nodes/pkg/api/server.go:132-141 | The start of a page: 0 when missing, the number printed, an error for any other text. |
| `Api.BothKeysReachTheRow` | 03-member-nodes/pkg/api/server.go:100-106 | The text of a hash is never taken for a number, so the decimal number of a row and the text of its hash reach the same row. |
| `Api.BothRequests` | 03-member-nodes/pkg/api/server.go:84-124 | The handler gives the request by number and the request by the hash text of a row the same answer, that row. |
| `Syncer.BlockSyncer.Start` | 03-member-nodes/pkg/sync/syncer.go:54-73 | The cursor is Geth's head number if it was read, and the latest stored number if the cursor is then 0. |
| `Syncer.BlockSyncer.ExecuteBlock` | 03-member-nodes/pkg/sync/syncer.go:178-227 | Decoding, NewPayload under the stored parent as beacon root, and the forkchoice update, with their failures. |
| `Syncer.BlockSyncer.SyncBatch` | 03-member-nodes/pkg/sync/syncer.go:115-176 | One page: each block is executed, saved and only then counted; the first failure ends the batch. |
| `Syncer.BlockSyncer.SyncLoop` | 03-member-nodes/pkg/sync/syncer.go:75-113 | The batches in order and the waits between them. |
| `Replication.PrefixReplication` | 03-member-nodes/pkg/sync/syncer.go:54-227 | Every state of one sync run: rows from the start to the cursor are the leader's, at most the next one is saved too, all others are untouched, Geth is at the cursor or one further, the blocks passed extend each other, and the count is their number. |
| `Replication.BlockKeeps` | 03-member-nodes/pkg/sync/syncer.go:139-167 | One block, failing anywhere, keeps this and moves the cursor by one exactly on success. |
| `Replication.ExecutesIff` | 03-member-nodes/pkg/sync/syncer.go:178-227 | Exactly when a served block is executed, for any Geth and any content, and what that does to Geth. |
| `Replication.StartAtGethHead` | 03-member-nodes/pkg/sync/syncer.go:54-70 | For every outcome of the two reads, exactly when Start puts the cursor at Geth's head. |
| `Replication.StartReplicates` | 03-member-nodes/pkg/sync/syncer.go:54-70 | With Geth on the leader's chain, and whatever reads fail, a run starts replicated exactly if its cursor is at Geth's head or one block below it. |
| `Replication.BatchAdvances` | 03-member-nodes/pkg/sync/syncer.go:115-176 | The cursor never moves back, and a batch without an error passes a full page or all that is left. |
| `Replication.SyncConverges` | 03-member-nodes/pkg/sync/syncer.go:75-176 | Against a fixed store, ceil(r/100) batches without an error pass all r remaining rows, however many failing ones lie between. |
| `Replication.LoopRunsBatches` | 03-member-nodes/pkg/sync/syncer.go:75-113 | The loop runs exactly these batches. |
| `Replication.BatchesCopy` | 03-member-nodes/pkg/sync/syncer.go:139-167 | On any store, with gaps or without, every row between the old cursor and the new one has been copied. |
| `Replication.GethStaysBelowGap` | 03-member-nodes/pkg/sync/syncer.go:139-215 | On a store with a missing number, whatever batches run, Geth never knows a block at or above the gap. |
| `Replication.BatchesKeepConsistency` | 03-member-nodes/pkg/sync/syncer.go:178-227 | Whatever rows it is served, the syncer leaves Geth with accepted blocks only. |
| `Replication.BackoffStaysBelowTheCap` | 03-member-nodes/pkg/sync/syncer.go:94-97 | Delays run from 200ms to 25.6s; the 30s cap is never reached. |
| `Replication.BackoffAccumulates` | 03-member-nodes/pkg/sync/syncer.go:90-103 | The total wait over k failing batches in a row, in closed form. |
| `Replication.WaitsByOutcome` | 03-member-nodes/pkg/sync/syncer.go:88-108 | In any run of good and failing batches, the wait after batch i is 100ms if it was good, and otherwise 100ms times 2 to the number of batches failed since the last good one, at most to the 8th. |
| `BlockBuilder.Builder.RetryWithBackoff` | 03-member-nodes/pkg/blockbuilder/builder.go:315-334 | At most eleven attempts, ended by success, a permanent error, a cancelled context or the limit on the elapsed time. |
| `Retrying.RetryEndsAt` | 03-member-nodes/pkg/blockbuilder/builder.go:315-334 | If the first k attempts (k at most 10) fail for now with time left, the result is that of attempt k; after eleven such failures it is the last error. |
| `Retrying.RetryEnds` | 03-member-nodes/pkg/blockbuilder/builder.go:315-334 | Every retried call ends so at one of eleven attempts. |
| `Retrying.AttemptKinds` | 03-member-nodes/pkg/blockbuilder/builder.go:86-239 | Exactly which outcomes of an engine call are retried and which end the retries with which error. |
| `BlockBuilder.Builder.PerformOnce` | 03-member-nodes/pkg/blockbuilder/builder.go:86-131 | The retried closures: which outcomes are retried, permanent or final. |
| `BlockBuilder.Builder.SetExecutionHeadFromRpc` | 03-member-nodes/pkg/blockbuilder/builder.go:292-308 | The head becomes what was read from Geth, or stays. |
| `BlockBuilder.Builder.GetPayload` | 03-member-nodes/pkg/blockbuilder/builder.go:70-76 | The head is read only if it is unset. |
| `BlockBuilder.Builder.BuildPayload` | 03-member-nodes/pkg/blockbuilder/builder.go:78-165 | Timestamp, build, fetch, the empty block, and the saved state. |
| `BlockBuilder.Builder.FinalizeBlock` | 03-member-nodes/pkg/blockbuilder/builder.go:168-271 | Decoding, validation, push, choice, head, store, publication, in this order, with all failures. |
| `BlockBuilder.Builder.ValidatePayload` | 03-member-nodes/pkg/blockbuilder/builder.go:273-289 | Passes exactly the direct successor of the head. |
| `BlockBuilder.Builder.ProduceBlock` | 03-member-nodes/cmd/main.go:444-455 | Build, read the state back, finalise what was read. |
| `Production.PushOutcome` | 03-member-nodes/pkg/blockbuilder/builder.go:201-219 | However often NewPayload is repeated, the block is accepted at most once, and success means that it was. |
| `Production.FinalisedIsBuilt` | 03-member-nodes/pkg/state/state.go:81-116 | Whenever GetPayload succeeds, the state read back is exactly the one with the payload id, payload and requests of this build on the builder's head (on Geth's if that was unset), for all failures, expiries and earlier states; and it can be finalised on that head. |
| `Contents.SavedContents` | 03-member-nodes/pkg/blockbuilder/builder.go:78-165 | What is saved and read back: the next number, the timestamp max(given time, head time + 1), the configured fee recipient, the head as randomness, parent and beacon root, the transactions and requests fetched, and the payload id of exactly these attributes. |
| `Production.ProducedIsBuilt` | 03-member-nodes/cmd/main.go:444-455 | The block that produceBlock moves to, and the row it stores, are what Geth built in that call. |
| `Production.BuiltIsFinalised` | 03-member-nodes/pkg/blockbuilder/builder.go:168-271 | What was built is never turned down: FinalizeBlock can then fail only for outside reasons. |
| `Production.FinalizeOutcome` | 03-member-nodes/pkg/blockbuilder/builder.go:168-289 | On arbitrary strings, FinalizeBlock leaves the head, the store and the stream alone or moves the head to a child that Geth accepted and chose; Geth stays at the builder's head or a child of it. |
| `LeaderRounds.FinalizeRefuses` | 03-member-nodes/pkg/blockbuilder/builder.go:168-199 | Which error FinalizeBlock returns on arbitrary strings before it calls Geth, and that it has changed nothing then. |
| `LeaderRounds.FinalizeStopsAtEngine` | 03-member-nodes/pkg/blockbuilder/builder.go:201-235 | The error of an engine call that does not get through is that of FinalizeBlock; only Geth has changed, and the head has not moved. |
| `LeaderRounds.GetPayloadStopsAtEngine` | 03-member-nodes/pkg/blockbuilder/builder.go:70-139 | The error of an engine call that does not get through is that of GetPayload; only Geth and a head that was read have changed. |
| `Production.ProduceKeepsTerm` | 03-member-nodes/cmd/main.go:444-455 | One produceBlock call: the head moves at most to a child, and the store gains at most one row, above all stored ones. |
| `Production.PromptBuild` | 03-member-nodes/pkg/blockbuilder/builder.go:70-165 | GetPayload with such calls: an empty block is skipped and saves nothing; any other is saved exactly as built. |
| `Production.PromptProduces` | 03-member-nodes/pkg/blockbuilder/builder.go:70-271 | If every engine call is delivered within eleven attempts and the build state is saved, a child of the head is built, accepted and chosen; success is reported exactly if its row is stored and it is published. |
| `Production.HeadIsReadOnce` | 03-member-nodes/pkg/blockbuilder/builder.go:70-76 | A head that was read stays the builder's head, whatever fails after it. |
| `Production.UndisturbedProduces` | 03-member-nodes/pkg/blockbuilder/builder.go:70-271 | In particular, when nothing but the save can fail. |
| `Production.TermKeeps` | 03-member-nodes/pkg/blockbuilder/builder.go:70-308 | The invariant of a whole leadership term, of any length. |
| `Production.SideEffectOrder` | 03-member-nodes/pkg/blockbuilder/builder.go:221-263 | Published blocks are stored, and published once each in rising order; stored blocks were accepted by Geth and lie on the chain of the tip, adjacent rows of the term are linked, older rows are untouched. |
| `Publication.FinalizePublishes` | 03-member-nodes/pkg/blockbuilder/builder.go:242-263 | The same of FinalizeBlock on arbitrary strings. |
| `Publication.ProducePublishes` | 03-member-nodes/pkg/blockbuilder/builder.go:242-263 | One produceBlock call appends exactly one entry, carrying what Geth built, exactly if it moved, the row was acknowledged and the publication was not lost; it succeeds exactly if that was acknowledged as well. |
| `Publication.TermPublishes` | 03-member-nodes/pkg/blockbuilder/builder.go:242-263 | The stream of a term, entry by entry: exactly these blocks, in order, with hash, data, number and clock. |
| `Publication.PublishedIff` | 03-member-nodes/pkg/blockbuilder/builder.go:242-263 | A block is published in a term exactly if some call moved to it, its row was acknowledged, and the publication was not lost. |
| `Production.StoredRowsReplay` | 03-member-nodes/pkg/sync/syncer.go:190-215 | No Geth judges a row stored in the term INVALID when it is replayed with its parent as beacon root and its requests, and any that knows the parent accepts it. |
| `Gaps.MoveIsStoredIff` | 03-member-nodes/pkg/blockbuilder/builder.go:237-256 | The block that one produceBlock call moves to is stored exactly if its save is not lost, its number fits the column and its hash is not stored yet. |
| `Gaps.GapFreeIffMovesStored` | 03-member-nodes/pkg/blockbuilder/builder.go:237-256 | A term leaves no gap above a number exactly if each call that moved the head above it had a save that was not lost and a number that fits. |
| `Gaps.NoLostSaveNoGap` | 03-member-nodes/pkg/blockbuilder/builder.go:237-256 | A term in which no save is lost has no gap exactly if its tip fits the BIGINT range or it moved to no block. |
| `Gaps.LostSaveLeavesGap` | 03-member-nodes/pkg/blockbuilder/builder.go:237-256 | A concrete term whose first save is lost stores block 2 and not block 1. |
| `EndToEnd.TermServesLedger` | 03-member-nodes/pkg/blockbuilder/builder.go:237-256 | Above any block of its chain, a term leaves consecutive rows up to its tip exactly if the save of every later block it moved to reached the store; these rows are then linked, replayable and end in the tip. |
| `EndToEnd.CalmBatchSucceeds` | 03-member-nodes/pkg/sync/syncer.go:115-227 | Following the store of any term, with gaps or without, a batch without failing calls returns without an error exactly if the cursor fits the BIGINT range. |
| `EndToEnd.CalmBatchesSucceed` | 03-member-nodes/pkg/sync/syncer.go:75-227 | So any number of batches without an error is possible, on the store of any term. |
| `EndToEnd.MemberReachesTip` | 03-member-nodes/pkg/sync/syncer.go:75-227 | From any block of the term's chain, enough batches without an error, however many fail between, give the member every later row that the leader's term stored; if every later move of the term was stored, its Geth then stands exactly at the leader's tip. |
| `EndToEnd.MemberReachesTipIff` | 03-member-nodes/pkg/sync/syncer.go:75-227 | Only then: a member whose Geth knew nothing above the block it started from reaches the leader's tip exactly if every later move of the term was stored, and is left on a lower block otherwise. |
| `LeaderLoop.MemberNodesApp.RunLeaderLoop` | 03-member-nodes/cmd/main.go:390-442 | The loop round by round: ticks, standby with its syncer, leading with resets. |
| `LeaderLoop.MemberNodesApp.Standby` | 03-member-nodes/cmd/main.go:409-418 | The syncer is started once and then runs by itself. |
| `LeaderLoop.MemberNodesApp.Lead` | 03-member-nodes/cmd/main.go:420-439 | The syncer is cancelled, a block is produced, the state is reset unless the block was empty. |
| `LeaderRounds.TurnsRefineSteps` | 03-member-nodes/cmd/main.go:390-418 | The ticks between two rounds of the loop are a run of the election's step machine. |
| `LeaderRounds.LeadingHoldsLease` | 03-member-nodes/cmd/main.go:390-418 | In any run of the election, a loop that leads holds the live key or got its last grant at least 5000ms ago. |
| `LeaderRounds.EmptyBlockSavesNothing` | 03-member-nodes/cmd/main.go:430-436 | An empty block leaves build state, store and stream alone. |
| `LeaderRounds.LeadRoundState` | 03-member-nodes/cmd/main.go:420-439 | What the next read of the build state returns after a leader's round: the reset state unless Redis missed the reset and still serves another; after an empty block the state is what it was before production. |
| `LeaderRounds.LostResetServesProduced` | 03-member-nodes/cmd/main.go:420-439 | If Redis misses the reset after production, it serves the state of the block just built for exactly five minutes after its save, and the reset state is read from then on. |
| `LeaderRounds.ResetStateIsRefused` | 03-member-nodes/cmd/main.go:439-455 | A build state that was reset is refused by FinalizeBlock, and nothing is done. |
| `Takeover.StandbyRun` | 03-member-nodes/cmd/main.go:406-418 | A standby replicates the leader's ledger in every round, while the leader appends. |
| `Takeover.LinearTakeover` | 03-member-nodes/cmd/main.go:390-455 | If the standby followed a store without a gap and had synced everything when it acquired the lease, then at every later time its tip descends from the old leader's last block, by a child of it if it moved; all rows stored since the node began to follow lie on the chain of that tip; the first new row names the old last block as parent. |
| `Forks.FirstTakeoverExtendsIff` | 03-member-nodes/cmd/main.go:390-455 | The first block of a node that has passed all rows of a term extends the old leader's tip exactly if the save of every block above the node's start reached the store; otherwise it has a number the old leader has used. |
| `Forks.FirstTakeoverCanFork` | 03-member-nodes/cmd/main.go:390-455 | A run of the loop in which a node passes all rows of a term with a lost save, leads, and produces a block off the chain of the old tip. |
| `Forks.TakeoverExtendsTipIff` | 03-member-nodes/pkg/blockbuilder/builder.go:72-76 | A block produced in any term extends a given block exactly if that is the builder's own head, or Geth's head while the builder's is unset. |
| `Forks.SecondTakeoverCanFork` | 03-member-nodes/pkg/blockbuilder/builder.go:72-76 | A run of the loop in which a node leads, is superseded and syncs the next block, and leads again with a rival of that block. |

## Left out

- Transport, JWT, HTTP routing, command line, signals, health, metrics and logging: plumbing around the protocols.
- CometBFT voting and gossip, EVM execution, Redis and PostgreSQL internals: environment assumptions, listed above.
- Goroutines and mutexes: every tick, call and flag read is a step; a request of the standby syncer that is still in flight when the syncer is cancelled is taken to have been served before.
- Parts 1 and 2, LocalStateManager, handleLatestBlock, Commit, CheckTx, Query, snapshots and vote extensions: nothing there is harder than what is modelled.
- A syncer without an engine and a builder without a store or a Redis client: 03-member-nodes/cmd/main.go always configures them.
- ConsensusApp.GethConsensusApp.FinalizeBlock: the source panics on a message without a payload; the model has an error, after which the validator stops as it does after any other.
- Safe and finalised block hashes: every caller passes the head for all three, so Forkchoice takes one hash.
- The receiver's view of the Redis stream: no code in the repository reads it.
- Syncer.BlockSyncer.SyncLoop: the leader's store is fixed while the method runs; growth between batches is covered by Replication.PrefixReplication, which is about the same steps.
- LeaderLoop.MemberNodesApp.RunLeaderLoop: the followed leader's store is fixed while the method runs; Takeover.LinearTakeover lets it grow between rounds.
- Syncer.BlockSyncer: the count of synced blocks is unbounded; the source's counter wraps at 64 bits.
- Replication.PrefixReplication: about a contiguous leader store; what a syncer does on a store with a gap is stated by Replication.GethStaysBelowGap and EndToEnd.MemberReachesTipIff. It covers one sync run; a restarted run begins again at Geth's head.
- BlockBuilder.Builder.FinalizeBlock: the source panics on an unset head where the model reports an error of its own and changes nothing; ProduceBlock never calls it so.
- BlockBuilder.Builder.RetryWithBackoff: the waits between attempts are randomised by the library and are not modelled; an attempt after which no time is left is (`late`).
