# BlockEmulator: sharded execution, migration and consensus, verified

BlockEmulator runs a blockchain in shards. Each shard has a PBFT group whose leader packs blocks, relays
cross-shard transactions to other shards, and now and then, when the supervisor hands out a new partition map,
ships accounts and queued transactions to their new homes. This project models three connected pieces of it
and two smaller ones, and proves what they are for:

1. **The relay and migration protocol (CLPA mode)**, as a transition system over any number of shards, any
   accounts and transactions, and messages in flight (`Ledger`, `Execution`, `Shards`, `Protocol`; `BlockLaws` says
   what a block does when nothing is assumed of anybody's funds). Proofs:
   `Rounds`/`RoundSteps` (how far shards may be apart, which messages exist in which phase),
   `Places`/`PlaceSteps` (where transactions and account states are), `Tally`/`TallySteps` (how often each
   transaction exists), `Settlement` (the single ledger behind the shards). Theorems over every run: `Runs`,
   `Authority`, `Outcome`, `Migration`. `Barrier`, `EarlyMaps` and `Stalls` give the exact conditions the protocol
   relies on, `Scenarios` reachable states in which they matter, and `Panics` what happens without them.
   `Leader`, `TxPool` and `Chain` are the imperative code of a shard's leader: each handler is proved to be the
   model's step, and `QueueSplits` states where the in-place queue splits send every transaction.
2. **PBFT, normal case, inside a shard (relay mode)**, with the replicas' chains and stored states: `Blocks`,
   `Pbft` (handlers, cluster, network), `PbftSafety` (theorems), `Replica` (the imperative handlers on a
   `Chain.BlockChain`), `Stragglers` (a replica out of step), and `Replicas` (replicas that commit blocks and
   partition requests in the same order).
3. **The CLPA graph partitioner**: `Graphs` (what the counters mean), `Clpa` (the imperative partitioner), and
   `Committee` (the supervisor that runs it, epoch by epoch).
4. **The broker split**: `Brokers` (records and runs), `BrokerRuns` (what a run sends), `BrokerBalances` (what
   the blocks then do to balances), `BrokerPlaces` (the account each transaction goes with), `BrokerCommittee` (the
   imperative supervisor).
5. **Proof search over the chain**: in `Chain`.

`dafny verify dfyconfig.toml` checks everything.

## Assumptions

Stated once, and not repeated at each member.

- Between two shards, messages of one kind arrive in order, are not lost and are handled at most once; messages
  of different kinds (relay, ready, shipment) may overtake each other. What the supervisor sends to a shard
  arrives in order. Handlers are atomic. Inside a PBFT group messages may be reordered and lost.
- Inside a PBFT group each sender's vote for a request is handled once: the code keys its vote maps by the
  decoded node object (consensus_shard/pbft_all/pbft.go:53-54, toolFuncs.go:22-34), so that a repeated vote
  would count twice, while the model counts sender ids. And nobody votes in another replica's name: the code
  takes the sender from the message and checks no signature
  (consensus_shard/pbft_all/messageHandle.go:182-212 and 244-266).
- In the migration protocol each shard is one replicated machine with the state of its leader. Inside a shard
  honest replicas hold prefixes of one chain, and each holds and can read the state its blocks lead to
  (`PbftSafety.ReplicatedState`); with partition requests among the committed ones, replicas that commit the same
  requests in the same order hold the same blocks, map and state (`Replicas.ReplicasAgree`).
- Transaction, block and state hashes are injective. A header stands for its hash, a state root for the
  accounts it commits to, a digest for its request.
- Values are non-negative. In CLPA mode no transaction is a broker transaction.
- Two assumptions on timing in the migration protocol (`Protocol.Timely`). No partition map arrives while its
  receiver is collecting parcels; at any other time it may arrive. A shard does not pass the barrier before it has
  received a relay from every shard that has committed a block. The program ensures neither, and without either
  one the commit handler's panic can be reached (`Panics.EarlyMapPanics`, `Panics.LateRelayPanics`).
  The supervisor hands out a map, and sends transactions, only while its epoch equals the number of maps
  (supervisor/committee/committee_clpa.go:154-156).
- No view change; the leader is node 0 and follows `Propose`; proposals come only from it; at most
  `(n - 1) / 3` replicas are arbitrary.
- The order in which a Go map is iterated is arbitrary: a parameter (`order`) or a non-deterministic choice.

One comment of the code differs from it, and the code is followed: the comment on the prepare quorum says 2f
messages where the code asks for 2f+1 (consensus_shard/pbft_all/messageHandle.go:215-218).

## What turned out to depend on a condition

- The incremental edge counts equal a recount exactly when the moved vertex has no edge to itself
  (`Graphs.IncrementalIsRecount`, `Clpa.ClpaState.Relabel`).
- `AddVertex` keeps the occupancy counters right exactly when the vertex is new (`Clpa.ClpaState.AddVertex`).
- `AddBlock` does not compare the state root with the execution it makes: the state stays what the chain says
  exactly when the root is the executed one, and readable exactly when it is that one or was already known
  (`Chain.BlockChain.AddBlock`).
- In every reachable state in which the barrier passes at a shard, a peer has no relay on its way there if and
  only if the peer was heard from or has committed no block (`Barrier.BarrierIsQuiet`; earlier barriers were
  passed under the assumption above). A reachable state in which it passes with a relayed transaction on its way:
  `Scenarios.RelayBehindBarrier`.
- In every run, maps and all other messages arriving at any time, a shard's round is the number of rounds it
  finished and its partition map is the supervisor's up to that round, if and only if it finished no round after
  a map had arrived between the previous map and the opening of its partition request
  (`EarlyMaps.LocatedExactly`). While the round structure holds these are the maps that arrive while it collects
  (`EarlyMaps.SpoilsWhileCollecting`). Such a map can end in the "incorrect tx" panic (`Panics.EarlyMapPanics`).
- A map that arrives while its receiver has a partition request open spoils nothing, but is never acted on: a
  shard is stalled if and only if it committed a request behind which a map had arrived (`Stalls.StalledExactly`),
  and then it stays in its round, and the supervisor issues and injects nothing any more
  (`Stalls.StalledForever`). Such a state is reachable (`Scenarios.MapStalls`).
- A shard's announcement is lost if and only if the receiver committed its previous partition request after the
  announcement had arrived (`Barrier.LostExactly`); it is not sent again, and the barrier there never passes
  afterwards (`Barrier.LostForever`). Such a state is reachable (`Scenarios.AnnouncementErased`).
- Commits carry no sequence check: a replica is in step if and only if it executed the proposals in order
  (`PbftSafety.InStepExactly`), and one that is not can occur (`Stragglers.OutOfStep`).
- Balances follow the reference ledger when every account can pay all it sends (`Ledger.Funded`); conservation
  needs only that no balance check has failed. In broker mode this holds of every account that is no broker, if
  no debit of a broker fails (`BrokerBalances.NonBrokersHaveReferenceBalance`).
- The broker split hands back an inner-shard transaction as soon as one of its accounts leaves, and a transaction
  with a broker goes with its other account (`QueueSplits.VerdictOf`).

## Model

| member | source | states |
|---|---|---|
| Ledger.ReferenceBalances | query/resultcheck_test.go:17-51 | on a funded dataset the sequential ledger gives every account its initial balance plus what it received minus what it sent |
| Execution.ExecuteAgrees | chain/blockchain.go:93-144 | executing a block of home transactions on two states that agree on the shard's own accounts gives states that agree on them, fails the same balance checks and touches no other account: stale copies of foreign accounts are never read |
| Execution.ExecuteFlow | chain/blockchain.go:93-144 | when no balance check fails, a block changes every balance by exactly its first phases (out) and finished transactions (in) |
| Execution.FundsSuffice | chain/blockchain.go:113-117 | no balance check of a block fails when what accounts have sent, with this block, is part of a funded dataset |
| BlockLaws.ExecTxPlain | chain/blockchain.go:93-144 | one transaction, in homes and balances: who is debited and credited, and that nothing happens when the sender cannot pay |
| BlockLaws.UnaffordableIsSkipped | chain/blockchain.go:114-117 | an inner-shard transfer its sender cannot pay leaves the state as it is |
| BlockLaws.InnerBlockConserves | chain/blockchain.go:93-144 | a block of inner-shard transfers, affordable or not, keeps the sum of the balances of any accounts that include the parties |
| BlockLaws.ExecuteIsReference | query/resultcheck_test.go:17-51 | a shard that is home to all parties has, for every dataset and without any funding assumption, exactly the balances of the sequential reference ledger |
| BlockLaws.BodyInOrder | chain/blockchain.go:93-144 | executing a body is executing its beginning and then the rest: transactions take effect in order |
| BlockLaws.ReferenceLine | query/resultcheck_test.go:17-51 | a line the sender cannot afford changes no balance, any other moves its value |
| Runs.QueuedAtHome | consensus_shard/pbft_all/pbftInside_moduleCLPA.go:101-109 | in every reachable state a queued transaction is unrelayed at its sender's home or relayed at its recipient's home, under the maps the shard has shipped for |
| Runs.NoIncorrectTx | consensus_shard/pbft_all/pbftInside_moduleCLPA.go:104-109 | the commit handler's "incorrect tx" panic is unreachable |
| Runs.NoErrorTx | consensus_shard/pbft_all/accountTransfer_module.go:143-150 | the proposer's "error tx" panic is unreachable, in whatever order the received parcels are merged |
| Runs.MapsAgree | consensus_shard/pbft_all/accountTransfer_module.go:180-194 | a shard's partition map is the overlay of the maps of its finished rounds; shards in the same round have the same map, and one that finished all rounds looks up as the supervisor does |
| Runs.RoundsClose | consensus_shard/pbft_all/accountTransfer_module.go:40-55 | no shard is more than one round ahead of another |
| Runs.BarrierExactly | consensus_shard/pbft_all/accountTransfer_module.go:40-55 | in a reachable state the barrier passes if and only if every peer's announcement of this round has arrived and the last relay heard from it is that of its last number |
| Runs.CollectsExactly | consensus_shard/pbft_all/pbftOutside_moduleCLPA.go:123-138 | with more than one shard, collecting ends if and only if every peer's parcel is there |
| Runs.BarrierHolds | consensus_shard/pbft_all/pbftInside_moduleCLPA.go:22-35 | after a shard passed the barrier, a peer keeps its sequence number, hence commits nothing, until it finishes the round holding this shard's parcel |
| Barrier.BarrierIsQuiet | consensus_shard/pbft_all/accountTransfer_module.go:40-55 | in every reachable state in which the barrier passes, a peer has announced the same round, and no relay of it is in flight to the shard if and only if it was heard from or has committed no block |
| Barrier.LostExactly | consensus_shard/pbft_all/accountTransfer_module.go:178-209 | in every run an announcement is lost at its receiver if and only if the receiver committed, at some earlier step, the partition request of the previous round after the announcement had arrived; while it is lost the barrier does not pass there |
| Barrier.LostForever | consensus_shard/pbft_all/accountTransfer_module.go:40-55 | a lost announcement stays lost and keeps the barrier closed in every later state |
| Scenarios.AnnouncementErased | consensus_shard/pbft_all/accountTransfer_module.go:178-209 | a reachable state of two shards in which the next step erases an announcement |
| Scenarios.RelayBehindBarrier | consensus_shard/pbft_all/accountTransfer_module.go:48-54 | a reachable state of two shards in which the barrier passes while a relay with any given crossing transaction is on its way |
| Panics.LateRelayPanics | consensus_shard/pbft_all/pbftInside_moduleCLPA.go:104-109 | a run of what the program allows in which a shard ships before it has heard from a peer, and that ends in the "incorrect tx" panic, for any crossing transaction whose recipient the map moves away |
| EarlyMaps.LocatedExactly | consensus_shard/pbft_all/accountTransfer_module.go:180-198 | over every run, all messages arriving at any time: a shard's round is the number of rounds it finished and its partition map the overlay of the maps issued up to it, if and only if it finished no round after a map had arrived between the previous map and the opening of its request |
| EarlyMaps.SpoilsWhileCollecting | consensus_shard/pbft_all/accountTransfer_module.go:124-165 | while the round structure holds, the maps that arrive in that interval are exactly those that arrive while the receiver is collecting |
| Stalls.StalledExactly | consensus_shard/pbft_all/accountTransfer_module.go:191-198 | in every run a shard is stalled if and only if it committed, at some earlier step, a partition request behind which the next map had arrived |
| Stalls.StalledForever | consensus_shard/pbft_all/accountTransfer_module.go:191-198 | a stalled shard stays in its round, and no map is issued and nothing injected in any later state |
| Scenarios.MapStalls | consensus_shard/pbft_all/accountTransfer_module.go:191-198 | a reachable state of two shards whose next step stalls a shard |
| Panics.EarlyMapPanics | consensus_shard/pbft_all/pbftInside_moduleCLPA.go:104-109 | a run of what the program allows in which a map arrives while its receiver is collecting, and that ends in the "incorrect tx" panic, for any two maps of which only the second moves the sender to that shard |
| RoundSteps.StepRounds | consensus_shard/pbft_all/pbftInside_moduleCLPA.go:22-46 | every step keeps the round structure: relays and ready messages in flight fit the sequence numbers, shipments are in flight or received exactly between shipping and finishing, links stay ordered |
| PlaceSteps.StepPlaced | consensus_shard/pbft_all/accountTransfer_module.go:58-209 | every step keeps transactions at home, shards holding the current state of their accounts, and parcels carrying exactly the accounts that move, with their current state |
| Places.ParcelIsOk | consensus_shard/pbft_all/accountTransfer_module.go:60-84 | what is shipped to a shard is exactly the accounts the map moves there, with their current state, and transactions they placed |
| PlaceSteps.OpenTransferOk | consensus_shard/pbft_all/accountTransfer_module.go:132-165 | the partition request carries every account that comes to the shard, in its current state, whatever the merge order |
| TallySteps.StepBalanced | core/txpool.go:37-66 | every step keeps, for every transaction: pending, plus first phases, plus finished, equals injected plus marked copies of first phases |
| Tally.ShippingKeepsAll | consensus_shard/pbft_all/accountTransfer_module.go:71-119 | over all receivers, the old queue is as a multiset what is left plus everything sent |
| Tally.BodyTally | consensus_shard/pbft_all/pbftInside_moduleCLPA.go:101-121 | each transaction of a committed block leaves marked or is finished, once |
| Tally.RelayedIsLeaving | consensus_shard/pbft_all/toolFuncs.go:114-137 | together the relay messages of a block carry each leaving transaction exactly once |
| Authority.OnePlace | consensus_shard/pbft_all/accountTransfer_module.go:58-84 | every account is in exactly one place, its responsible shard or one parcel, and the balance there is the ledger's |
| Outcome.ExactlyOnce | consensus_shard/pbft_all/pbftInside_moduleCLPA.go:85-128 | in every reachable state each injected transaction is, as often as it was injected, waiting for its first phase, between its phases, or finished |
| Outcome.AllExecuted | consensus_shard/pbft_all/pbftInside_moduleCLPA.go:85-128 | in a quiet system first phases are the injected transactions, and second phases their marked copies, as multisets |
| Outcome.SingleLedger | query/resultcheck_test.go:85-99 | in a quiet system the one place of every account has the balance of the sequential reference ledger, for any dataset order, shard count and interleaving with migrations |
| Outcome.HomeHasReferenceBalance | query/resultcheck_test.go:85-99 | once all rounds are finished that place is the shard the supervisor's map names |
| Outcome.Conservation | chain/blockchain.go:96-143 | at every reachable state without a failed balance check, balances wherever they are plus debited and not yet credited value equal the initial endowment |
| Outcome.FundedNeverStarves | chain/blockchain.go:113-117 | on funded input no balance check ever fails |
| Migration.MigrationKeepsAccounts | consensus_shard/pbft_all/accountTransfer_module.go:58-189 | whenever a shard finishes a round, every account the round's map moves to it was shipped by its old home at exactly one earlier step, and arrives in the state in which it was shipped, whatever happened in between |
| Migration.FinishedWasShipped | consensus_shard/pbft_all/accountTransfer_module.go:58-129 | whenever a shard finishes a round, every shard has shipped that round at exactly one step, an earlier one |
| Migration.ParcelsFrozen | chain/blockchain.go:375-398 | no step changes the state of an account while it is in a parcel |
| TxPool.TxPool.AddTxs2Pool | core/txpool.go:37-46 | appends, in place or to a larger array |
| TxPool.TxPool.AddTx2Pool | core/txpool.go:27-34 | appends one transaction, in place or to a larger array |
| TxPool.TxPool.PackTxs | core/txpool.go:56-66 | takes a prefix of at most the given number, and fewer only when the queue is empty afterwards |
| TxPool.TxPool.PackTxsWithBytes | core/txpool.go:69-86 | takes the longest prefix that fits the given bytes |
| TxPool.TxPool.AddRelayTx | core/txpool.go:89-97 | appends to the relay list of one shard only |
| TxPool.TxPool.SplitFor | consensus_shard/pbft_all/accountTransfer_module.go:86-103 | the two-pointer loop returns what travels and leaves the rest in the window, both in order |
| TxPool.TxPool.Decide | consensus_shard/pbft_all/accountTransfermod_Broker.go:92-114 | a transaction with a broker is sent exactly when the account it is executed for leaves; one without is handed back exactly when one of its accounts leaves; anything else is kept |
| TxPool.TxPool.SplitForBroker | consensus_shard/pbft_all/accountTransfermod_Broker.go:86-126 | the branching loop returns what is sent and what becomes cross-shard and leaves the rest, all in order |
| QueueSplits.ShippedByMap | consensus_shard/pbft_all/accountTransfer_module.go:71-103 | over all receivers, the parcel to shard k carries exactly the queued transactions whose placing account the last map moves to k, and what is left are exactly those whose placing account stays |
| QueueSplits.ShippingIsStable | consensus_shard/pbft_all/accountTransfer_module.go:86-103 | over all receivers, what goes to a shard and what is left are subsequences of the queue, at exactly the positions the map decides |
| QueueSplits.BrokerSplitKeepsAll | consensus_shard/pbft_all/accountTransfermod_Broker.go:72-126 | over all receivers, the old queue is as a multiset what is left, what was sent and what becomes cross-shard |
| QueueSplits.BrokerShippedByMap | consensus_shard/pbft_all/accountTransfermod_Broker.go:72-126 | over all receivers: shard k is sent exactly what is executed for accounts the last map moves to k; handed back at its turn are exactly the transactions without a broker whose first leaving account goes to k; the rest stays |
| QueueSplits.BrokerShippingIsStable | consensus_shard/pbft_all/accountTransfermod_Broker.go:86-126 | over all receivers, each of the three parts is a subsequence of the queue, at exactly the positions the map decides |
| QueueSplits.KeysAreMoved | consensus_shard/pbft_all/accountTransfer_module.go:60-84 | the accounts a receiver gets are those the last map moves from this shard to it |
| Leader.Leader.HandleRelay | consensus_shard/pbft_all/pbftOutside_moduleCLPA.go:40-52 | queues the relayed transactions and records the sender's sequence number |
| Leader.Leader.HandleInjectTx | consensus_shard/pbft_all/pbftOutside_moduleCLPA.go:81-89 | queues the injected transactions |
| Leader.Leader.HandlePartitionMsg | consensus_shard/pbft_all/pbftOutside_moduleCLPA.go:93-102 | appends the map and turns the partition flag on |
| Leader.Leader.HandlePartitionReady | consensus_shard/pbft_all/pbftOutside_moduleCLPA.go:105-120 | records the peer's readiness and sequence number |
| Leader.Leader.HandleAccountStateAndTxMsg | consensus_shard/pbft_all/pbftOutside_moduleCLPA.go:123-138 | keeps the parcel and ends collecting when all peers' parcels are there |
| Leader.Leader.GenerateBlock | chain/blockchain.go:166-191 | packs a prefix of the queue into a sealed block on the current one whose root is the executed state: the model's opening of a block |
| Leader.Leader.Classify | consensus_shard/pbft_all/pbftInside_moduleCLPA.go:96-121 | panics exactly on a foreign transaction; otherwise relay 1 are those whose recipient lives elsewhere, relay 2 the relayed ones and inner the unrelayed ones whose recipient lives here, and the relay pool holds what goes to each shard |
| Leader.Leader.RelayMsgSend | consensus_shard/pbft_all/toolFuncs.go:114-137 | one relay message to every other shard with what the body relays to it, and an empty relay pool |
| Leader.Leader.constructor | consensus_shard/pbft_all/pbft.go:88-130 | a fresh leader is the model's fresh shard, and its chain says what its state is |
| Leader.Leader.HandleinCommit | consensus_shard/pbft_all/pbftInside_moduleCLPA.go:76-186 | for any block: appended exactly if it fits, relays and report in any case, a panic exactly when the chain crashes or a transaction is foreign; for a block mined on the current one it is the model's step and the chain stays faithful |
| Leader.Leader.MineAndCommit | consensus_shard/pbft_all/pbftInside_moduleCLPA.go:37-88 | one turn of mining and committing is the model's opening and committing of a block, and keeps what the next turn needs |
| Leader.InjectMineCommit | consensus_shard/pbft_all/pbftInside_moduleCLPA.go:37-186 | a fresh leader that is injected transactions, mines and commits ends in the model's state with a chain that says what its state is |
| Leader.Leader.SendPartitionReady | consensus_shard/pbft_all/accountTransfer_module.go:17-37 | marks itself ready and tells every other shard its sequence number |
| Leader.Leader.GetPartitionReady | consensus_shard/pbft_all/accountTransfer_module.go:40-55 | the loop over heard peers, in any order, decides the barrier |
| Leader.Leader.SendAccountsAndTxs | consensus_shard/pbft_all/accountTransfer_module.go:58-122 | one parcel to every other shard, the queue split in place once per receiver: the model's shipping step |
| Leader.Leader.ProposePartition | consensus_shard/pbft_all/accountTransfer_module.go:132-175 | merges the parcels in any order and opens the request, or panics, with nothing changed, exactly when some received transaction's placing account is not mapped to this shard |
| Leader.Leader.AccountTransferDo | consensus_shard/pbft_all/accountTransfer_module.go:178-209 | overlays the map, stores the accounts homed here, resets the record: the model's finishing step, and the state stays what the chain says |
| Chain.BlockChain.Apply | chain/blockchain.go:93-144 | one transaction on the trie being built, in homes, balances and nonces: debit, credit, and neither when the sender cannot pay |
| Chain.BlockChain.GetUpdateStatusTrie | chain/blockchain.go:80-163 | the loop computes the state the block executes to and stores it; it fails exactly on a non-empty body over an unreadable root |
| Chain.BlockChain.GenerateBlock | chain/blockchain.go:166-191 | the block mined on the current one, whose root is readable afterwards |
| Chain.BlockChain.AddBlock | chain/blockchain.go:229-248 | refuses exactly a wrong number or parent; does not execute when the root is known; crashes exactly when it must execute and cannot; with the exact conditions for a readable and for a faithful root |
| Chain.BlockChain.IsValidBlock | chain/blockchain.go:308-317 | accepts exactly a block on the current one whose transaction root holds exactly the hashes of its body |
| Chain.BlockChain.AddAccounts | chain/blockchain.go:320-373 | the listed accounts homed here get their listed state and nothing else changes; appends a partition block that depends only on chain, map and request; the state stays faithful |
| Chain.BlockChain.FetchAccounts | chain/blockchain.go:376-398 | returns each account's state, a missing one with the initial balance |
| Replicas.CommitsDecide | chain/blockchain.go:229-248 | a replica that commits requests mined on the chain they continue never crashes nor refuses, and holds exactly the chain they describe, whatever it mined and stored in between |
| Replicas.ReplicasAgree | chain/blockchain.go:320-373 | replicas that committed the same requests in the same order have the same blocks, partition blocks included, the same partition map and the same state, which is the replay of the log |
| Chain.SealedFinds | chain/merkleproof.go:58-93 | on a sealed block the search, bloom filter included, finds a transaction if and only if the body holds it |
| Chain.BlockChain.TxProofGenerateOnTheBlock | chain/merkleproof.go:58-93 | on any block, finds exactly when the bloom bit is set, the body has the hash and the root matches |
| Chain.BlockChain.TxProofGenerate | chain/merkleproof.go:28-55 | terminates, and returns the highest block after the genesis on which the search succeeds, or none when there is none |
| Chain.BlockChain.FindTx | chain/merkleproof.go:28-55 | on a sealed chain, finds a transaction if and only if a block holds it, in the highest such block |
| PbftSafety.ChainsAgree | consensus_shard/pbft_all/messageHandle.go:117-312 | every honest chain is the genesis block and a prefix of the leader's proposals, so any two are prefix-comparable |
| PbftSafety.CommitCertificate | consensus_shard/pbft_all/messageHandle.go:204-301 | an executed request has f+1 honest committers, each after 2f+1 prepares, and f+1 honest replicas that validated its block against their own chain |
| PbftSafety.PredecessorHeld | consensus_shard/pbft_all/messageHandle.go:150-155 | an honest replica has block h+1 only when f+1 honest replicas have block h |
| PbftSafety.LeaderDiscipline | consensus_shard/pbft_all/messageHandle.go:48-105 | the lock is held exactly while one proposal is outstanding, each sequence number has one proposal, and the leader's sequence number is its height plus one |
| PbftSafety.UnlockIsHeld | consensus_shard/pbft_all/messageHandle.go:272-310 | when a commit makes the leader unlock, the lock is held, the request is the outstanding proposal and its block is appended |
| PbftSafety.ExecutedOnce | consensus_shard/pbft_all/messageHandle.go:272-301 | no replica executes a request twice, its sequence number counts its executions, and its chain consists of executed requests |
| PbftSafety.InStepExactly | consensus_shard/pbft_all/messageHandle.go:261-301 | commits carry no sequence check: a replica's number is its height plus one if and only if it executed the leader's proposals in order |
| Stragglers.OutOfStep | consensus_shard/pbft_all/messageHandle.go:261-301 | a cluster that occurs in which an honest replica executed request number 2 before number 1: the block is refused and its number is ahead of its chain |
| PbftSafety.ReplicatedState | chain/blockchain.go:229-248 | in every cluster that occurs an honest replica has not crashed, can read the state of its tip, and the root of each of its blocks is what executing the bodies up to it leads to, whether it executed, mined or skipped them |
| PbftSafety.StatesAgree | chain/blockchain.go:229-248 | honest replicas have the same state at every height both reached |
| PbftSafety.HonestChainsSealed | chain/blockchain.go:166-191 | in every cluster that occurs every block of an honest chain is sealed: its header commits to its body and bloom filter |
| PbftSafety.AddFollows | chain/blockchain.go:229-248 | an executed proposal extends a chain exactly when its number is next; an early one is refused and the chain stays a prefix |
| PbftSafety.HonestMajority | consensus_shard/pbft_all/pbft.go:120 | of 2f+1 votes at least f+1 are honest |
| Pbft.Group.F | consensus_shard/pbft_all/pbft.go:120 | the largest number of arbitrary replicas of which the group has more than three times as many |
| Replica.Replica.constructor | consensus_shard/pbft_all/pbft.go:111-123 | a fresh replica: number one above the genesis height, no votes, lock free, and a fault bound f with 3f + 1 <= n < 3f + 4 |
| Replica.Replica.Set2DMap | consensus_shard/pbft_all/toolFuncs.go:22-34 | adds one sender to the votes of one digest in one of the two maps |
| Replica.Replica.ProposeRequest | consensus_shard/pbft_all/messageHandle.go:54-105 | takes the lock, mines a block on the own chain, pools the request and broadcasts it under the current number; panics exactly when the state cannot be read |
| Replica.Replica.HandlePrePrepare | consensus_shard/pbft_all/messageHandle.go:117-176 | pools a current or future request whose digest matches, and prepares exactly a current one that is valid on the own chain |
| Replica.Replica.HandlePrepare | consensus_shard/pbft_all/messageHandle.go:179-239 | counts a vote exactly for a pooled digest at the current number, and commits exactly once, at 2f + 1 votes |
| Replica.Replica.HandleCommit | consensus_shard/pbft_all/messageHandle.go:242-312 | counts a vote at or above the current number; at 2f + 1 votes, once, executes a pooled request, steps its number, even when the block is refused, and releases the leader's lock |
| Replica.Replica.ReplyTo | consensus_shard/pbft_all/messageHandle.go:272-311 | executes a pooled request on the chain object, steps the number even when the block is refused, and releases the leader's lock |
| Replica.ReplicaIsFaithful | chain/blockchain.go:229-248 | the chain object of an honest replica in any cluster that occurs is faithful and sealed: its state is the replay of its log and can be read, and the search on it is complete |
| Graphs.NeighborsAreJoined | partition/graph.go:31-45 | the adjacency list of a vertex holds another as often as edges join the two, and itself twice per edge to itself |
| Graphs.WalkCounts | partition/partition_CLPA.go:112-136 | walking the adjacency lists in any vertex order meets an edge touching shard k once when it enters k and twice when it is inside |
| Graphs.WalkCrosses | partition/partition_CLPA.go:128-132 | the entering counts add up to twice the cross edges |
| Graphs.EntriesSum | partition/partition_CLPA.go:102-143 | the entries of all shards add up to all edges plus cross edges |
| Graphs.IncrementalIsRecount | partition/partition_CLPA.go:146-160 | the incremental update gives the recounted entries and cross number if and only if the moved vertex has no edge to itself |
| Graphs.MoveChanges | partition/partition_CLPA.go:146-160 | the incremental update is off by exactly the moved vertex's self-loops |
| Clpa.KeptIsRecount | partition/partition_CLPA.go:146-160 | after any sequence of moves of vertices without self-loops the incrementally kept numbers equal a fresh count |
| Clpa.ClpaState.constructor | partition/partition_CLPA.go:171-177 | an empty graph with the seeded map, all counters right |
| Clpa.ClpaState.AddVertex | partition/partition_CLPA.go:47-56 | a new vertex gets its seeded or default shard; the occupancy counters stay right exactly when it was new |
| Clpa.ClpaState.AddEdge | partition/partition_CLPA.go:59-70 | adds the edge in both directions and its missing ends; all counters and lists keep their meaning |
| Clpa.ClpaState.Connect | partition/graph.go:31-45 | the adjacency lists stay those of the undirected graph |
| Clpa.ClpaState.ComputeEdges2Shard | partition/partition_CLPA.go:102-143 | entry k becomes the number of undirected edges touching shard k, with the cross number and the minimum |
| Clpa.ClpaState.WalkAll | partition/partition_CLPA.go:112-126 | both counters of every shard after a walk over all adjacency lists in any vertex order |
| Clpa.ClpaState.SumUp | partition/partition_CLPA.go:128-132 | half of the sum of the entering counts is the number of cross edges |
| Clpa.ClpaState.FindMin | partition/partition_CLPA.go:137-142 | the smallest entry, capped by the largest machine integer |
| Clpa.ClpaState.ChangeShardRecompute | partition/partition_CLPA.go:146-168 | every entry and the cross number change by the per-neighbour shifts, and the minimum is that of the new entries |
| Clpa.ClpaState.Relabel | partition/partition_CLPA.go:255-264 | counters that were right stay right exactly when the vertex has no edge to itself; occupancy stays right |
| Clpa.ClpaState.BestShard | partition/partition_CLPA.go:241-254 | scoring each neighbour shard once, finds the best label for any score |
| Clpa.BestLabelTops | partition/partition_CLPA.go:241-254 | the best label is that of the first neighbour whose shard has the greatest score above -9999, and the own one if there is none |
| Clpa.ClpaState.Visit | partition/partition_CLPA.go:237-265 | with fewer than 50 moves and company in its shard the vertex goes to the best-scored neighbour shard above -9999, and otherwise stays; the run's bookkeeping is kept |
| Clpa.VisitFollowsScore | partition/partition_CLPA.go:237-265 | a logged visit moves its vertex exactly as the score says |
| Clpa.ClpaState.Sweep | partition/partition_CLPA.go:236-266 | one iteration visits every vertex once, in any order, each visit following the score |
| Clpa.EmptyResultIsOptimal | partition/partition_CLPA.go:231-274 | a run of at least one iteration that returns an empty map started where no vertex could improve |
| Clpa.ClpaState.Partition | partition/partition_CLPA.go:231-274 | for any score and visiting order: as many iterations as configured, each visiting every vertex once by the score; the returned map laid over the old assignment is the new one, moves follow neighbours, no vertex moves more than min(50, iterations) times, no occupied shard ends empty, counters equal a recount, and an empty map means that no vertex could improve |
| Committee.Committee.TxSending | supervisor/committee/committee_clpa.go:74-103 | however transactions are batched, each shard is injected, in order, each transaction as often as it is listed if its sender lives there and else not at all |
| Committee.Committee.HandleBlockInfo | supervisor/committee/committee_clpa.go:214-230 | the epoch steps only to its successor; between any two addresses as many edges are added as there are reported transactions between them, the parties and nobody else become vertices, and graph and lookup keep agreeing |
| Committee.Committee.ClpaReset | supervisor/committee/committee_clpa.go:206-212 | an empty graph seeded with the modified map |
| Committee.Committee.RunEpoch | supervisor/committee/committee_clpa.go:142-152 | handing out the partitioner's map: lookup, final assignment and reseeded graph give every address the same home, and the supervisor is that of the protocol model |
| BrokerRuns.BrokerSplit | supervisor/committee/committee_broker.go:161-323 | over every run in which each committed half is reported at most once: exactly one tx1 of each raw transaction is sent, exactly one tx2 after and only after tx1 is confirmed, nothing else is sent, and the record is a prefix of [tx1, tx2] telling exactly what was confirmed |
| BrokerRuns.OnlyAwaitedAreRecorded | supervisor/committee/committee_broker.go:161-182 | a second half that was not awaited before a report is not recorded by it, even when the report holds its first half |
| BrokerRuns.SentIsHalves | supervisor/committee/committee_broker.go:161-323 | once everything sent was reported, what was sent is as a multiset both halves of everything dealt with |
| BrokerRuns.SentMovesLikeDealt | supervisor/committee/committee_broker.go:210-253 | then every account but the broker sends and receives through what was sent exactly what it does by the raw transactions |
| BrokerBalances.BlocksSettle | chain/blockchain.go:93-144 | blocks of transactions executed where the supervisor sent them, in any interleaving of the shards, give every non-broker at home its initial balance plus received minus sent, provided no debit of a broker failed |
| BrokerBalances.NonBrokersHaveReferenceBalance | supervisor/committee/committee_broker.go:72-208 | on a funded dataset that was split, reported and executed in full without a failed broker debit, every non-broker has at its home the balance of the sequential reference ledger |
| BrokerPlaces.SplitExactly | supervisor/committee/committee_broker.go:184-208 | exactly the transactions between two shards without a broker are split |
| BrokerPlaces.SentFlags | supervisor/committee/committee_broker.go:196-201 | what is not split keeps its parties and value, is flagged exactly if one of them is a broker, with the flag saying which, and otherwise has both parties in one shard |
| BrokerPlaces.SentGoesWithCarrier | consensus_shard/pbft_all/accountTransfermod_Broker.go:92-114 | the account the queue split moves a transaction with is its recipient if its sender is a listed broker and its sender otherwise, for every tx1, tx2 and flagged transaction |
| BrokerPlaces.BrokerTxFollowsRoute | consensus_shard/pbft_all/accountTransfermod_Broker.go:72-126 | a transaction sent with a broker is shipped to a shard if and only if the map moves there the account it was routed by |
| BrokerCommittee.BrokerCommittee.DealTxByBroker | supervisor/committee/committee_broker.go:184-208 | splits exactly what crosses shards without a broker, and sends the rest flagged |
| BrokerCommittee.BrokerCommittee.IsBroker | broker/broker.go:25-32 | finds exactly the listed addresses |
| BrokerCommittee.BrokerCommittee.HandleBrokerRawMag | supervisor/committee/committee_broker.go:210-230 | keeps the raw messages, pools and sends one tx1 for each, from the raw sender to the broker, field by field |
| BrokerCommittee.BrokerCommittee.HandleBrokerType2Mes | supervisor/committee/committee_broker.go:232-253 | pools and sends one tx2 for each, from the broker to the raw recipient, field by field |
| BrokerCommittee.BrokerCommittee.HandleTx1ConfirmMag | supervisor/committee/committee_broker.go:283-305 | records confirmed first halves of registered messages and sends exactly their second halves |
| BrokerCommittee.BrokerCommittee.HandleTx2ConfirmMag | supervisor/committee/committee_broker.go:307-323 | records confirmed second halves |
| BrokerCommittee.BrokerCommittee.CreateConfirm | supervisor/committee/committee_broker.go:161-182 | looks a report up in both pools first, then handles first halves, then second halves |

## Left out

- SZHBFT inter-zone consensus: consensus_shard/pbft_all/pbftOutside_moduleSZHBFT.go:181-449 is an unresolved merge.
- View change: its messages carry no prepared certificates, so nothing is claimed across views.
- Catch-up by old requests: a replica that lacks a committed request marks it replied and goes on; the answer to its request for old blocks is not modelled.
- Equivocating leaders: the leader is honest, since an earlier digest at the same number is not checked.
- Partition requests inside PBFT: `Pbft` has block requests only (relay mode); committing a partition request is `Leader.Leader.AccountTransferDo`, and replicas that commit both kinds in the same order are the subject of `Replicas`. A replica that is out of step (`PbftSafety.InStepExactly`) is not covered there.
- `pbftStage` and the single `Wait`: they order goroutines and are not needed for safety.
- Liveness: that the barrier is eventually passed is not stated. It needs at least one block between two rounds, and no announcement that is erased (`Barrier.LostExactly`) and no map behind an open partition request (`Stalls.StalledExactly`).
- Balances of broker accounts: tx1 and tx2 are built without the broker flag, and the repository's own comparison tolerates wrong broker balances.
- Location of transactions in the mode that combines CLPA and brokers: homes are looked up and transactions sent while the map changes. Only its queue split is modelled.
- Floating-point scores and the division by the minimum: the score is a parameter, any real-valued function of adjacency, assignment, entries and minimum (`Clpa.Score`); the program's formula, and its rounding, is not modelled.
- Tries, databases, encodings, SHA-256, VRF and Merkle proof contents: maps, values and injective hashes.
- Relays with Merkle proofs, network, timers, logging, metrics and configuration.
- `DeleteElementsInList`, `CopyCLPA`, `Init_Partition`, `Stable_Init_Partition`, `EraseEdges`: not called by the modelled code.
- Accounts are values: `Deduct` and `Deposit` in core/account.go change a decoded copy that is written back, as `Chain.BlockChain.Apply` does on values. The fields other than nonce and balance are unused.
- Transactions are values: the commit handler sets the relayed flag on objects it shares with the current block in memory; the model marks copies.
- Machine integers: sequence numbers, heights and shard ids are unbounded. The initial minimum of the edge counts is the largest machine integer, as in the code.
- TxPool.TxPool.PackTxsWithBytes: all transactions have the same size, as the code measures the record and not its contents.
- The lists of finished transactions in a block report: in the protocol model a report has its shard and epoch; the lists are what `Leader.Leader.Classify` returns and `Committee.Committee.HandleBlockInfo` takes.
- Time stamps of blocks and transactions, and signatures.
