/**
 One shard's leader as a value: its queue, accounts, partition map and migration record,
 and what every handler and every stage of its propose/commit cycle does to them.
 */
module Shards {
  import opened Ledger
  import opened Execution

  /** Accounts and pending transactions sent to another shard in one migration round. */
  datatype Parcel = Parcel(accounts: Accounts, txs: seq<Tx>)

  /** The content of a partition request. */
  datatype AccountTransfer = AccountTransfer(pmap: PartitionMap, accounts: Accounts, atid: nat)

  /** Where the leader's propose/commit cycle stands; Idle means the sequence lock is free. */
  datatype Stage =
    | Idle
    | BlockOpen(body: seq<Tx>)
    | AwaitingReady
    | Collecting
    | PartitionOpen(atm: AccountTransfer)

  datatype Shard = Shard(
    queue: seq<Tx>, accounts: Accounts, pmap: PartitionMap, seqId: nat,
    maps: seq<PartitionMap>, round: nat, partitionOn: bool,
    ready: set<ShardId>, readySeq: map<ShardId, nat>, heard: map<ShardId, nat>,
    received: map<ShardId, Parcel>, collectOver: bool, stage: Stage)

  const FRESH_SHARD := Shard([], map[], map[], 1, [], 0, false, {}, map[], map[], map[], false, Idle)

  datatype Packet =
    | Inject(to: ShardId, txs: seq<Tx>)
    | MapMsg(to: ShardId, pmap: PartitionMap)
    | Relay(from: ShardId, to: ShardId, txs: seq<Tx>, seqNo: nat)
    | Ready(from: ShardId, to: ShardId, seqNo: nat)
    | Shipment(from: ShardId, to: ShardId, parcel: Parcel)
    | BlockInfo(from: ShardId, epoch: nat)

  function SiteOf(cfg: Config, s: Shard, id: ShardId): Site {
    Site(cfg, s.pmap, id)
  }

  // ---------- Handlers of messages from outside the shard ----------

  function HandleRelay(s: Shard, from: ShardId, txs: seq<Tx>, q: nat): Shard {
    s.(queue := s.queue + txs, heard := s.heard[from := q])
  }

  function HandleInject(s: Shard, txs: seq<Tx>): Shard {
    s.(queue := s.queue + txs)
  }

  function HandlePartitionMsg(s: Shard, m: PartitionMap): Shard {
    s.(maps := s.maps + [m], partitionOn := true)
  }

  function HandleReady(s: Shard, from: ShardId, q: nat): Shard {
    s.(ready := s.ready + {from}, readySeq := s.readySeq[from := q])
  }

  function HandleShipment(s: Shard, n: nat, from: ShardId, parcel: Parcel): Shard {
    var received := s.received[from := parcel];
    s.(received := received, collectOver := s.collectOver || |received| == n - 1)
  }

  // ---------- Blocks ----------

  function OpenBlock(s: Shard, size: nat): Shard
    requires size <= |s.queue|
  {
    s.(queue := s.queue[size..], stage := BlockOpen(s.queue[..size]))
  }

  /** The commit handler finds a transaction that does not belong to this shard. */
  predicate IncorrectTx(site: Site, tx: Tx) {
    (!tx.relayed && !Local(site, tx.sender)) || (tx.relayed && !Local(site, tx.recipient))
  }

  /** The transactions of a committed body that are relayed to shard `k`. */
  function RelayTxs(cfg: Config, pmap: PartitionMap, body: seq<Tx>, k: ShardId): seq<Tx> {
    if body == [] then []
    else
      var tx := body[|body| - 1];
      RelayTxs(cfg, pmap, body[..|body| - 1], k)
        + if HomeOf(cfg, pmap, tx.recipient) == k then [Mark(tx)] else []
  }

  /** One relay message to each other shard below `k`, even when it carries nothing. */
  function RelayMsgs(cfg: Config, s: Shard, id: ShardId, body: seq<Tx>, k: nat): seq<Packet> {
    if k == 0 then []
    else
      RelayMsgs(cfg, s, id, body, k - 1)
        + if k - 1 == id then [] else [Relay(id, k - 1, RelayTxs(cfg, s.pmap, body, k - 1), s.seqId)]
  }

  /** What the leader sends when a block commits: the relays, and a report with its epoch. */
  function BlockMsgs(cfg: Config, s: Shard, id: ShardId, body: seq<Tx>): seq<Packet> {
    RelayMsgs(cfg, s, id, body, cfg.shards) + [BlockInfo(id, s.round)]
  }

  function CommitBlock(cfg: Config, s: Shard, id: ShardId, body: seq<Tx>): Shard {
    s.(accounts := Execute(SiteOf(cfg, s, id), s.accounts, body), seqId := s.seqId + 1, stage := Idle)
  }

  // ---------- Migration ----------

  function DeclareReady(s: Shard, id: ShardId): Shard {
    s.(ready := s.ready + {id}, stage := AwaitingReady)
  }

  function ReadyMsgs(s: Shard, id: ShardId, k: nat): seq<Packet> {
    if k == 0 then []
    else ReadyMsgs(s, id, k - 1) + if k - 1 == id then [] else [Ready(id, k - 1, s.seqId)]
  }

  /** The barrier test. */
  predicate PartitionReady(s: Shard, n: nat) {
    (forall k :: k in s.heard ==> k in s.readySeq && s.readySeq[k] == s.heard[k] + 1)
    && |s.ready| == n
  }

  /** The accounts this shard ships to `k` under its last partition map. */
  function Moved(cfg: Config, s: Shard, id: ShardId, k: ShardId): Accounts
    requires s.maps != []
  {
    var m := s.maps[|s.maps| - 1];
    map a | a in m && m[a] == k && k != id && HomeOf(cfg, s.pmap, a) == id :: Fetch(s.accounts, a, 0)
  }

  /** The queue-split test: the address that placed the transaction is among the shipped ones. */
  predicate Travels(tx: Tx, keys: set<Addr>) {
    (tx.sender in keys && !tx.relayed) || (tx.recipient in keys && tx.relayed)
  }

  function Picked(queue: seq<Tx>, keys: set<Addr>): seq<Tx> {
    if queue == [] then []
    else
      var tx := queue[|queue| - 1];
      Picked(queue[..|queue| - 1], keys) + if Travels(tx, keys) then [tx] else []
  }

  function Kept(queue: seq<Tx>, keys: set<Addr>): seq<Tx> {
    if queue == [] then []
    else
      var tx := queue[|queue| - 1];
      Kept(queue[..|queue| - 1], keys) + if Travels(tx, keys) then [] else [tx]
  }

  /** The queue left after shipping to the shards below `k`, in order. */
  function ShipQueue(cfg: Config, s: Shard, id: ShardId, k: nat): seq<Tx>
    requires s.maps != []
  {
    if k == 0 then s.queue
    else if k - 1 == id then ShipQueue(cfg, s, id, k - 1)
    else Kept(ShipQueue(cfg, s, id, k - 1), Moved(cfg, s, id, k - 1).Keys)
  }

  function ParcelFor(cfg: Config, s: Shard, id: ShardId, k: ShardId): Parcel
    requires s.maps != []
  {
    var moved := Moved(cfg, s, id, k);
    Parcel(moved, Picked(ShipQueue(cfg, s, id, k), moved.Keys))
  }

  /** The parcel for every shard, indexed by receiver (the shard's own entry is not sent). */
  function Parcels(cfg: Config, s: Shard, id: ShardId): (r: seq<Parcel>)
    requires s.maps != []
    ensures |r| == cfg.shards && forall k :: 0 <= k < |r| ==> r[k] == ParcelFor(cfg, s, id, k)
  {
    seq(cfg.shards, (k: nat) => ParcelFor(cfg, s, id, k))
  }

  /** The shipments to the shards below `k`. */
  function Shipments(parcels: seq<Parcel>, id: ShardId, k: nat): seq<Packet>
    requires k <= |parcels|
  {
    if k == 0 then []
    else Shipments(parcels, id, k - 1) + if k - 1 == id then [] else [Shipment(id, k - 1, parcels[k - 1])]
  }

  function Ship(cfg: Config, s: Shard, id: ShardId): Shard
    requires s.maps != []
  {
    s.(queue := ShipQueue(cfg, s, id, cfg.shards), stage := Collecting)
  }

  /** Everything received, read in the given order of senders. */
  function MergedAccounts(received: map<ShardId, Parcel>, order: seq<ShardId>): Accounts
    requires forall k :: k in order ==> k in received
  {
    if order == [] then map[]
    else
      var last := order[|order| - 1];
      assert last in order;
      MergedAccounts(received, order[..|order| - 1]) + received[last].accounts
  }

  function MergedTxs(received: map<ShardId, Parcel>, order: seq<ShardId>): seq<Tx>
    requires forall k :: k in order ==> k in received
  {
    if order == [] then []
    else
      var last := order[|order| - 1];
      assert last in order;
      MergedTxs(received, order[..|order| - 1]) + received[last].txs
  }

  /** The sanity check on received transactions; a key missing from the map reads as shard 0. */
  predicate ErrorTx(m: PartitionMap, id: ShardId, tx: Tx) {
    (if Anchor(tx) in m then m[Anchor(tx)] else 0) != id
  }

  function OpenPartition(s: Shard, order: seq<ShardId>): Shard
    requires s.round < |s.maps|
    requires forall k :: k in order ==> k in s.received
  {
    s.(queue := s.queue + MergedTxs(s.received, order),
       stage := PartitionOpen(AccountTransfer(s.maps[s.round], MergedAccounts(s.received, order), |s.maps|)))
  }

  /** Stores the shipped accounts that are homed here under the new map. */
  function AddAccounts(site: Site, acc: Accounts, added: Accounts): Accounts {
    acc + map a | a in added && Local(site, a) :: added[a]
  }

  function CommitPartition(cfg: Config, s: Shard, id: ShardId, atm: AccountTransfer): Shard {
    var pmap := s.pmap + atm.pmap;
    s.(pmap := pmap,
       accounts := AddAccounts(Site(cfg, pmap, id), s.accounts, atm.accounts),
       maps := if |s.maps| != atm.atid then s.maps + [atm.pmap] else s.maps,
       round := atm.atid,
       received := map[], ready := {}, partitionOn := false, collectOver := false,
       seqId := s.seqId + 1, stage := Idle)
  }
}
