/**
 The leader of a shard as the program has it: a pool, a chain, a migration record, and handlers
 that change them in place. `Value` is the shard state of the protocol model; every handler is
 the model's step on it.
 */
module Leader {
  import opened Basics
  import opened Ledger
  import opened Execution
  import opened Shards
  import opened Blocks
  import opened TxPool
  import opened Replicas
  import opened Chain

  // ---------- Small facts about loops ----------

  lemma RelaySnoc(cfg: Config, pmap: PartitionMap, body: seq<Tx>, n: nat, k: ShardId)
    requires n < |body|
    ensures RelayTxs(cfg, pmap, body[..n + 1], k)
         == RelayTxs(cfg, pmap, body[..n], k)
            + if HomeOf(cfg, pmap, body[n].recipient) == k then [Mark(body[n])] else []
  {
    assert body[..n + 1][..n] == body[..n];
  }

  /** The relay pool after the first transactions of a body were classified. */
  ghost predicate PoolIs(relayPool: map<ShardId, seq<Tx>>, cfg: Config, pmap: PartitionMap, body: seq<Tx>,
      id: ShardId) {
    forall k: nat :: k != id ==> RelayTxs(cfg, pmap, body, k) == PooledFor(relayPool, k)
  }

  function PooledFor(relayPool: map<ShardId, seq<Tx>>, k: ShardId): seq<Tx> {
    if k in relayPool then relayPool[k] else []
  }

  lemma PoolSnoc(relayPool: map<ShardId, seq<Tx>>, cfg: Config, pmap: PartitionMap, body: seq<Tx>, n: nat, id: ShardId)
    requires n < |body| && PoolIs(relayPool, cfg, pmap, body[..n], id)
    ensures var home := HomeOf(cfg, pmap, body[n].recipient);
      PoolIs(if home == id then relayPool else relayPool[home := PooledFor(relayPool, home) + [Mark(body[n])]],
             cfg, pmap, body[..n + 1], id)
  {
    var home := HomeOf(cfg, pmap, body[n].recipient);
    var after := if home == id then relayPool else relayPool[home := PooledFor(relayPool, home) + [Mark(body[n])]];
    forall k: nat | k != id ensures RelayTxs(cfg, pmap, body[..n + 1], k) == PooledFor(after, k) {
      RelaySnoc(cfg, pmap, body, n, k);
      assert RelayTxs(cfg, pmap, body[..n], k) == PooledFor(relayPool, k);
    }
  }

  /** What a committed transaction is to the shard that committed it. */
  datatype Class = Wrong | InnerShard | FirstRelay | SecondRelay

  function ClassOf(site: Site, tx: Tx): Class {
    if IncorrectTx(site, tx) then Wrong
    else if !Local(site, tx.recipient) then FirstRelay
    else if tx.relayed then SecondRelay
    else InnerShard
  }

  /** Some transaction of the body does not belong to this shard. */
  predicate Foreign(site: Site, body: seq<Tx>) {
    exists j :: 0 <= j < |body| && IncorrectTx(site, body[j])
  }

  function WithClass(site: Site, body: seq<Tx>, kind: Class): seq<Tx> {
    if body == [] then []
    else
      var tx := body[|body| - 1];
      WithClass(site, body[..|body| - 1], kind) + if ClassOf(site, tx) == kind then [tx] else []
  }

  /** In plain terms: whose recipient lives elsewhere is relayed; of the others those that came by a relay are
      finished second phases, and the rest are the shard's own. */
  ghost predicate ClassifiedByFlag(site: Site, body: seq<Tx>, inner: seq<Tx>, relay1: seq<Tx>, relay2: seq<Tx>) {
    (forall tx :: tx in relay1 <==> tx in body && HomeOf(site.cfg, site.pmap, tx.recipient) != site.shard)
    && (forall tx :: tx in relay2 <==>
          tx in body && HomeOf(site.cfg, site.pmap, tx.recipient) == site.shard && tx.relayed)
    && (forall tx :: tx in inner <==>
          tx in body && HomeOf(site.cfg, site.pmap, tx.recipient) == site.shard && !tx.relayed)
  }

  /** A body without foreign transactions falls into the three classes by flag and recipient. */
  lemma {:induction false} WithClassIn(site: Site, body: seq<Tx>)
    ensures !Foreign(site, body) ==>
      ClassifiedByFlag(site, body, WithClass(site, body, InnerShard), WithClass(site, body, FirstRelay),
                       WithClass(site, body, SecondRelay))
  {
    if body != [] && !Foreign(site, body) {
      var init, last := body[..|body| - 1], body[|body| - 1];
      assert body == init + [last];
      assert !IncorrectTx(site, body[|body| - 1]);
      assert forall j :: 0 <= j < |init| ==> init[j] == body[j];
      WithClassIn(site, init);
    }
  }

  /** The first `n` transactions are sorted into the relay pool and the three lists. */
  ghost predicate Sorting(site: Site, body: seq<Tx>, n: nat, relayPool: map<ShardId, seq<Tx>>,
                          inner: seq<Tx>, relay1: seq<Tx>, relay2: seq<Tx>)
  {
    n <= |body| && PoolIs(relayPool, site.cfg, site.pmap, body[..n], site.shard)
    && inner == WithClass(site, body[..n], InnerShard) && relay1 == WithClass(site, body[..n], FirstRelay)
    && relay2 == WithClass(site, body[..n], SecondRelay)
  }

  lemma SortingSnoc(site: Site, body: seq<Tx>, n: nat, relayPool: map<ShardId, seq<Tx>>,
                    inner: seq<Tx>, relay1: seq<Tx>, relay2: seq<Tx>)
    requires Sorting(site, body, n, relayPool, inner, relay1, relay2) && n < |body|
    ensures ClassOf(site, body[n]) == InnerShard ==>
      Sorting(site, body, n + 1, relayPool, inner + [body[n]], relay1, relay2)
    ensures ClassOf(site, body[n]) == SecondRelay ==>
      Sorting(site, body, n + 1, relayPool, inner, relay1, relay2 + [body[n]])
    ensures var home := HomeOf(site.cfg, site.pmap, body[n].recipient);
      ClassOf(site, body[n]) == FirstRelay ==>
        Sorting(site, body, n + 1, relayPool[home := PooledFor(relayPool, home) + [Mark(body[n])]],
          inner, relay1 + [body[n]], relay2)
  {
    PoolSnoc(relayPool, site.cfg, site.pmap, body, n, site.shard);
    assert body[..n + 1][..n] == body[..n];
    assert inner + [] == inner && relay1 + [] == relay1 && relay2 + [] == relay2;
  }

  lemma SortedByFlag(site: Site, body: seq<Tx>, relayPool: map<ShardId, seq<Tx>>,
                     inner: seq<Tx>, relay1: seq<Tx>, relay2: seq<Tx>)
    requires Sorting(site, body, |body|, relayPool, inner, relay1, relay2) && !Foreign(site, body)
    ensures ClassifiedByFlag(site, body, inner, relay1, relay2)
  {
    assert body[..|body|] == body;
    WithClassIn(site, body);
  }

  lemma SortingNothing(site: Site, body: seq<Tx>)
    ensures Sorting(site, body, 0, map[], [], [], [])
  {
    forall k: nat | k != site.shard ensures RelayTxs(site.cfg, site.pmap, body[..0], k) == PooledFor(map[], k) {
    }
  }

  /** The accounts of `all` that `m` assigns to `k`. */
  function AssignedTo(all: Accounts, m: PartitionMap, k: ShardId): Accounts {
    map a | a in all && a in m && m[a] == k :: all[a]
  }

  /** The accounts of shard `id` that the last map takes away from it. */
  function Leavers(cfg: Config, s: Shard, id: ShardId): Accounts
    requires s.maps != []
  {
    var m := s.maps[|s.maps| - 1];
    map a | a in m && m[a] != id && HomeOf(cfg, s.pmap, a) == id :: Fetch(s.accounts, a, 0)
  }

  lemma LeaversAreMoved(cfg: Config, s: Shard, id: ShardId, k: ShardId)
    requires s.maps != [] && k != id
    ensures AssignedTo(Leavers(cfg, s, id), s.maps[|s.maps| - 1], k) == Moved(cfg, s, id, k)
  {
  }

  /** Where shipping stands after the shards below `i`. */
  ghost predicate Shipping(cfg: Config, s: Shard, id: ShardId, i: nat, queue: seq<Tx>, msgs: seq<Packet>) {
    s.maps != [] && i <= cfg.shards && queue == ShipQueue(cfg, s, id, i)
    && msgs == Shipments(Parcels(cfg, s, id), id, i)
  }

  lemma ShippingSnoc(cfg: Config, s: Shard, id: ShardId, i: nat, queue: seq<Tx>, msgs: seq<Packet>)
    requires Shipping(cfg, s, id, i, queue, msgs) && i < cfg.shards && i != id
    ensures var accounts := AssignedTo(Leavers(cfg, s, id), s.maps[|s.maps| - 1], i);
      Shipping(cfg, s, id, i + 1, Kept(queue, accounts.Keys),
               msgs + [Shipment(id, i, Parcel(accounts, Picked(queue, accounts.Keys)))])
  {
    LeaversAreMoved(cfg, s, id, i);
    assert Parcels(cfg, s, id)[i] == ParcelFor(cfg, s, id, i);
  }

  lemma ShippingSelf(cfg: Config, s: Shard, id: ShardId, i: nat, queue: seq<Tx>, msgs: seq<Packet>)
    requires Shipping(cfg, s, id, i, queue, msgs) && i < cfg.shards && i == id
    ensures Shipping(cfg, s, id, i + 1, queue, msgs)
  {
    assert msgs + [] == msgs;
  }

  lemma ShippingDone(cfg: Config, s: Shard, id: ShardId, queue: seq<Tx>, msgs: seq<Packet>)
    requires Shipping(cfg, s, id, cfg.shards, queue, msgs)
    ensures s.(queue := queue, stage := Collecting) == Ship(cfg, s, id)
    ensures msgs == Shipments(Parcels(cfg, s, id), id, cfg.shards)
  {
  }

  lemma BlockDone(cfg: Config, s: Shard, id: ShardId, body: seq<Tx>, accounts: Accounts)
    requires accounts == Execute(SiteOf(cfg, s, id), s.accounts, body)
    ensures s.(accounts := accounts, seqId := s.seqId + 1, stage := Idle) == CommitBlock(cfg, s, id, body)
  {
  }

  lemma PartitionDone(cfg: Config, s: Shard, id: ShardId, atm: AccountTransfer, accounts: Accounts,
      maps: seq<PartitionMap>)
    requires accounts == AddAccounts(Site(cfg, s.pmap + atm.pmap, id), s.accounts, atm.accounts)
    requires maps == if |s.maps| != atm.atid then s.maps + [atm.pmap] else s.maps
    ensures s.(pmap := s.pmap + atm.pmap, accounts := accounts, maps := maps, round := atm.atid, received := map[],
               ready := {}, partitionOn := false, collectOver := false, seqId := s.seqId + 1, stage := Idle)
         == CommitPartition(cfg, s, id, atm)
  {
  }

  /** The block was mined on `tip`. */
  predicate MinedHere(site: Site, tip: Block, b: Block) {
    Fits(tip, b) && Executes(site, tip, b)
  }

  class Leader {
    const cfg: Config
    const id: ShardId
    const pool: TxPool
    const chain: BlockChain
    var sequenceID: nat
    var seqIDMap: map<ShardId, nat>
    var modifiedMap: seq<PartitionMap>
    var accountTransferRound: nat
    var partitionOn: bool
    var partitionReady: set<ShardId>
    var readySeq: map<ShardId, nat>
    var accountStateTx: map<ShardId, Parcel>
    var collectOver: bool
    /** Where the leader is in its propose/commit cycle. */
    ghost var stage: Stage

    ghost predicate Sound()
      reads pool`lo, pool`hi, pool`buf, chain`blocks, chain`storage, chain`currentBlock, chain`log
    {
      pool.Valid() && chain.Valid() && chain.cfg == cfg && chain.shardId == id
    }

    /** Besides, the state of the current block can be read; otherwise the program panics where it reads it. */
    ghost predicate Valid()
      reads pool`lo, pool`hi, pool`buf, chain`blocks, chain`storage, chain`currentBlock, chain`log, chain`known
    {
      Sound() && chain.State() in chain.known
    }

    ghost function Value(): Shard
      reads this, pool`lo, pool`hi, pool`buf, pool.buf
      reads chain`blocks, chain`storage, chain`currentBlock, chain`log, chain`partitionMap
      requires Sound()
    {
      Shard(pool.Queue(), chain.State(), chain.partitionMap, sequenceID, modifiedMap, accountTransferRound, partitionOn,
            partitionReady, readySeq, seqIDMap, accountStateTx, collectOver, stage)
    }

    constructor (c: Config, i: ShardId)
      ensures Valid() && fresh(pool) && fresh(pool.buf) && fresh(chain) && cfg == c && id == i
      ensures Value() == FRESH_SHARD && chain.Faithful() && chain.AllSealed()
    {
      cfg, id := c, i;
      pool := new TxPool();
      chain := new BlockChain(c, i);
      sequenceID, seqIDMap, modifiedMap, accountTransferRound, partitionOn := 1, map[], [], 0, false;
      partitionReady, readySeq, accountStateTx, collectOver, stage := {}, map[], map[], false, Idle;
    }

    // ---------- Messages from outside the shard ----------

    method HandleRelay(from: ShardId, txs: seq<Tx>, senderSeq: nat)
      requires Valid()
      modifies this`seqIDMap, pool, pool.buf
      ensures Valid() && Value() == Shards.HandleRelay(old(Value()), from, txs, senderSeq)
      ensures pool.buf == old(pool.buf) || fresh(pool.buf)
    {
      pool.AddTxs2Pool(txs);
      seqIDMap := seqIDMap[from := senderSeq];
    }

    method HandleInjectTx(txs: seq<Tx>)
      requires Valid()
      modifies pool, pool.buf
      ensures Valid() && Value() == HandleInject(old(Value()), txs)
      ensures pool.buf == old(pool.buf) || fresh(pool.buf)
    {
      pool.AddTxs2Pool(txs);
    }

    method HandlePartitionMsg(m: PartitionMap)
      requires Valid()
      modifies this`modifiedMap, this`partitionOn
      ensures Valid() && Value() == Shards.HandlePartitionMsg(old(Value()), m)
    {
      modifiedMap := modifiedMap + [m];
      partitionOn := true;
    }

    method HandlePartitionReady(from: ShardId, nowSeqID: nat)
      requires Valid()
      modifies this`partitionReady, this`readySeq
      ensures Valid() && Value() == HandleReady(old(Value()), from, nowSeqID)
    {
      partitionReady := partitionReady + {from};
      readySeq := readySeq[from := nowSeqID];
    }

    method HandleAccountStateAndTxMsg(from: ShardId, at: Parcel)
      requires Valid()
      modifies this`accountStateTx, this`collectOver
      ensures Valid() && Value() == HandleShipment(old(Value()), cfg.shards, from, at)
    {
      accountStateTx := accountStateTx[from := at];
      if |accountStateTx| == cfg.shards - 1 {
        collectOver := true;
      }
    }

    // ---------- Blocks ----------

    /** Takes a body from the pool and mines it; the block carries the state it leads to. */
    method GenerateBlock(max: nat) returns (b: Block)
      requires Valid()
      modifies this`stage, pool, chain`known
      ensures Valid() && pool.buf == old(pool.buf)
      ensures Value() == OpenBlock(old(Value()), Least(max, |old(pool.Queue())|))
      ensures stage == BlockOpen(b.body) && MinedHere(chain.Here(), chain.currentBlock, b) && Sealed(b)
    {
      ghost var queue := pool.Queue();
      var body := pool.PackTxs(max);
      assert body == queue[..|body|] && pool.Queue() == queue[|body|..];
      var mined := chain.GenerateBlock(body, 0);
      b := mined.value;
      stage := BlockOpen(body);
      MinedIsSealed(chain.currentBlock, body, b.header.stateRoot, 0);
    }

    /** Sorts the committed transactions into finished ones and relays. It stops at the first
        transaction that does not belong to this shard. */
    method Classify(body: seq<Tx>) returns (panicked: bool, inner: seq<Tx>, relay1: seq<Tx>, relay2: seq<Tx>)
      modifies pool`relayPool
      ensures var site := Site(cfg, chain.partitionMap, id);
        (panicked <==> Foreign(site, body))
        && (!panicked ==> ClassifiedByFlag(site, body, inner, relay1, relay2))
        && (!panicked ==> Sorting(site, body, |body|, pool.relayPool, inner, relay1, relay2))
    {
      var site := Site(cfg, chain.partitionMap, id);
      pool.ClearRelayPool();
      panicked, inner, relay1, relay2 := false, [], [], [];
      SortingNothing(site, body);
      for i := 0 to |body|
        invariant Sorting(site, body, i, pool.relayPool, inner, relay1, relay2)
        invariant forall j :: 0 <= j < i ==> !IncorrectTx(site, body[j])
      {
        var tx := body[i];
        var ssid, rsid := HomeOf(cfg, site.pmap, tx.sender), HomeOf(cfg, site.pmap, tx.recipient);
        if (!tx.relayed && ssid != id) || (tx.relayed && rsid != id) {
          return true, inner, relay1, relay2;
        }
        SortingSnoc(site, body, i, pool.relayPool, inner, relay1, relay2);
        if rsid != id {
          relay1 := relay1 + [tx];
          pool.AddRelayTx(Mark(tx), rsid);
        } else if tx.relayed {
          relay2 := relay2 + [tx];
        } else {
          inner := inner + [tx];
        }
      }
      SortedByFlag(site, body, pool.relayPool, inner, relay1, relay2);
    }

    /** One relay message to every other shard, carrying what the relay pool has for it. */
    method RelayMsgSend(ghost body: seq<Tx>) returns (msgs: seq<Packet>)
      requires Sound() && PoolIs(pool.relayPool, cfg, chain.partitionMap, body, id)
      modifies pool`relayPool
      ensures msgs == RelayMsgs(cfg, Value(), id, body, cfg.shards) && pool.relayPool == map[]
    {
      msgs := [];
      for sid := 0 to cfg.shards
        invariant Sound() && pool.relayPool == old(pool.relayPool) && msgs == RelayMsgs(cfg, Value(), id, body, sid)
      {
        if sid != id {
          assert RelayTxs(cfg, chain.partitionMap, body, sid) == PooledFor(pool.relayPool, sid);
          msgs := msgs + [Relay(id, sid, if sid in pool.relayPool then pool.relayPool[sid] else [], sequenceID)];
        } else {
          assert msgs + [] == msgs;
        }
      }
      pool.ClearRelayPool();
    }

    /** What the leader sends after a block was appended; `s` is the shard before. */
    method RelayAndReport(body: seq<Tx>, ghost s: Shard) returns (panicked: bool, msgs: seq<Packet>)
      requires Sound() && s.pmap == chain.partitionMap && s.seqId == sequenceID && s.round == accountTransferRound
      modifies pool`relayPool
      ensures panicked <==> Foreign(SiteOf(cfg, s, id), body)
      ensures !panicked ==> msgs == BlockMsgs(cfg, s, id, body)
    {
      var inner, relay1, relay2;
      panicked, inner, relay1, relay2 := Classify(body);
      msgs := [];
      if !panicked {
        assert body[..|body|] == body;
        RelaysKeepState(s, Value(), body, cfg.shards);
        msgs := RelayMsgSend(body);
        msgs := msgs + [BlockInfo(id, accountTransferRound)];
      }
    }

    /** Commits a block: appends it if it fits, relays and reports in any case, and takes the next
        number. It stops where the chain crashes or a transaction does not belong here. For a block mined
        on the current one this is the model's step, and the chain stays faithful. */
    method HandleinCommit(b: Block) returns (panicked: bool, msgs: seq<Packet>)
      requires Sound()
      modifies this`sequenceID, this`stage, pool`relayPool, chain
      ensures Sound() && chain.partitionMap == old(chain.partitionMap)
      ensures panicked <==>
        Adding(old(chain.currentBlock), old(chain.known), b) == Crashed
          || Foreign(SiteOf(cfg, old(Value()), id), b.body)
      ensures chain.blocks
        == old(chain.blocks) + if Adding(old(chain.currentBlock), old(chain.known), b).Added? then [b] else []
      ensures !panicked ==>
        Value() == old(Value()).(accounts := chain.State(), seqId := old(sequenceID) + 1, stage := Idle)
      ensures !panicked ==> msgs == BlockMsgs(cfg, old(Value()), id, b.body)
      ensures MinedHere(old(chain.Here()), old(chain.currentBlock), b) && !panicked ==>
        Value() == CommitBlock(cfg, old(Value()), id, b.body)
      ensures old(Valid()) && MinedHere(old(chain.Here()), old(chain.currentBlock), b) ==> Valid()
      ensures old(chain.Faithful()) && MinedHere(old(chain.Here()), old(chain.currentBlock), b) ==> chain.Faithful()
    {
      ghost var s := Value();
      ghost var mined := MinedHere(chain.Here(), chain.currentBlock, b);
      var crashed := AppendBlock(b);
      if crashed {
        return true, [];
      }
      panicked, msgs := RelayAndReport(b.body, s);
      if !panicked {
        sequenceID, stage := sequenceID + 1, Idle;
        if mined {
          BlockDone(cfg, s, id, b.body, chain.State());
        }
      }
    }

    /** One turn of the propose/commit cycle with a block; on a faithful chain it can be repeated. */
    method MineAndCommit(max: nat) returns (panicked: bool, msgs: seq<Packet>)
      requires Valid() && chain.Faithful()
      modifies this`sequenceID, this`stage, pool, chain
      ensures Valid() && chain.Faithful() && pool.buf == old(pool.buf)
      ensures var n := Least(max, |old(pool.Queue())|);
        var site, body := old(chain.Here()), old(pool.Queue())[..n];
        (panicked <==> Foreign(site, body)) && chain.State() == Execute(site, old(chain.State()), body)
        && (!panicked ==> Value() == CommitBlock(cfg, OpenBlock(old(Value()), n), id, body))
        && (!panicked ==> msgs == BlockMsgs(cfg, OpenBlock(old(Value()), n), id, body))
    {
      var b := GenerateBlock(max);
      panicked, msgs := HandleinCommit(b);
    }

    /** The chain's part of committing a block. */
    method AppendBlock(b: Block) returns (crashed: bool)
      requires Sound()
      modifies chain
      ensures Sound() && chain.partitionMap == old(chain.partitionMap)
      ensures crashed <==> Adding(old(chain.currentBlock), old(chain.known), b) == Crashed
      ensures chain.blocks
        == old(chain.blocks) + if Adding(old(chain.currentBlock), old(chain.known), b).Added? then [b] else []
      ensures MinedHere(old(chain.Here()), old(chain.currentBlock), b) && !crashed ==>
        chain.State() == Execute(old(chain.Here()), old(chain.State()), b.body)
      ensures MinedHere(old(chain.Here()), old(chain.currentBlock), b) && old(Valid()) ==> Valid() && !crashed
      ensures MinedHere(old(chain.Here()), old(chain.currentBlock), b) && old(chain.Faithful()) ==> chain.Faithful()
    {
      var added := chain.AddBlock(b);
      crashed := added == Crashed;
    }

    /** The relay messages depend only on the partition map and the sequence number. */
    lemma RelaysKeepState(x: Shard, y: Shard, body: seq<Tx>, n: nat)
      requires x.pmap == y.pmap && x.seqId == y.seqId
      ensures RelayMsgs(cfg, x, id, body, n) == RelayMsgs(cfg, y, id, body, n)
    {
    }

    // ---------- Migration ----------

    method SendPartitionReady() returns (msgs: seq<Packet>)
      requires Valid()
      modifies this`partitionReady, this`stage
      ensures Valid() && Value() == DeclareReady(old(Value()), id)
      ensures msgs == ReadyMsgs(old(Value()), id, cfg.shards)
    {
      ghost var before := Value();
      partitionReady := partitionReady + {id};
      stage := AwaitingReady;
      msgs := [];
      for sid := 0 to cfg.shards
        invariant msgs == ReadyMsgs(before, id, sid)
      {
        if sid != id {
          msgs := msgs + [Ready(id, sid, sequenceID)];
        } else {
          assert msgs + [] == msgs;
        }
      }
    }

    method GetPartitionReady() returns (ready: bool)
      requires Valid()
      ensures ready == PartitionReady(Value(), cfg.shards)
    {
      var flag, keys := true, seqIDMap.Keys;
      while keys != {}
        invariant keys <= seqIDMap.Keys
        invariant flag <==> forall k :: k in seqIDMap && k !in keys ==> k in readySeq && readySeq[k] == seqIDMap[k] + 1
        decreases keys
      {
        var sid :| sid in keys;
        keys := keys - {sid};
        if sid !in readySeq || seqIDMap[sid] != readySeq[sid] as int - 1 {
          flag := false;
        }
      }
      ready := |partitionReady| == cfg.shards && flag;
    }

    /** The accounts this shard has to give away, read from the chain. */
    method FetchLeavers() returns (all: Accounts)
      requires Valid() && modifiedMap != []
      ensures all == Leavers(cfg, Value(), id)
    {
      var m := modifiedMap[|modifiedMap| - 1];
      all := map[];
      var keys := m.Keys;
      while keys != {}
        invariant keys <= m.Keys
        invariant all == map a | a in m.Keys - keys && m[a] != id && HomeOf(cfg, chain.partitionMap, a) == id ::
          Fetch(chain.State(), a, 0)
        decreases keys
      {
        var a :| a in keys;
        keys := keys - {a};
        var home := chain.GetPartitionMap(a);
        if m[a] != id && home == id {
          var fetched := chain.FetchAccounts([a]);
          all := all[a := fetched.value[0]];
        }
      }
    }

    static method SelectFor(all: Accounts, m: PartitionMap, k: ShardId) returns (acc: Accounts)
      ensures acc == AssignedTo(all, m, k)
    {
      acc := map[];
      var keys := all.Keys;
      while keys != {}
        invariant keys <= all.Keys
        invariant acc == map a | a in all.Keys - keys && a in m && m[a] == k :: all[a]
        decreases keys
      {
        var a :| a in keys;
        keys := keys - {a};
        if a in m && m[a] == k {
          acc := acc[a := all[a]];
        }
      }
    }

    /** Takes what goes to shard `k` out of the queue, in place. */
    method SplitOff(all: Accounts, m: PartitionMap, k: ShardId) returns (parcel: Parcel)
      requires Valid()
      modifies pool`hi, pool.buf
      ensures Valid() && pool.buf == old(pool.buf)
      ensures parcel == Parcel(AssignedTo(all, m, k), Picked(old(pool.Queue()), AssignedTo(all, m, k).Keys))
      ensures pool.Queue() == Kept(old(pool.Queue()), AssignedTo(all, m, k).Keys)
    {
      var accounts := SelectFor(all, m, k);
      var txs := pool.SplitFor(accounts.Keys);
      parcel := Parcel(accounts, txs);
    }

    /** Splits the queue once per receiver. */
    method ShipAll(ghost s: Shard) returns (msgs: seq<Packet>, ghost queue: seq<Tx>)
      requires Valid() && modifiedMap != [] && s == Value()
      modifies pool`hi, pool.buf
      ensures Valid() && pool.buf == old(pool.buf) && pool.Queue() == queue
      ensures Shipping(cfg, s, id, cfg.shards, queue, msgs)
    {
      var m := modifiedMap[|modifiedMap| - 1];
      var all := FetchLeavers();
      msgs, queue := [], s.queue;
      for i := 0 to cfg.shards
        invariant Valid() && pool.buf == old(pool.buf) && pool.Queue() == queue
        invariant Shipping(cfg, s, id, i, queue, msgs)
      {
        if i != id {
          ShippingSnoc(cfg, s, id, i, queue, msgs);
          var parcel := SplitOff(all, m, i);
          queue := pool.Queue();
          msgs := msgs + [Shipment(id, i, parcel)];
        } else {
          ShippingSelf(cfg, s, id, i, queue, msgs);
        }
      }
    }

    /** Ships every other shard its accounts and the queued transactions they placed. */
    method SendAccountsAndTxs() returns (msgs: seq<Packet>)
      requires Valid() && modifiedMap != []
      modifies this`stage, pool`hi, pool.buf
      ensures Valid() && pool.buf == old(pool.buf)
      ensures Value() == Ship(cfg, old(Value()), id)
      ensures msgs == Shipments(Parcels(cfg, old(Value()), id), id, cfg.shards)
    {
      ghost var s, queue := Value(), [];
      msgs, queue := ShipAll(s);
      stage := Collecting;
      ShippingDone(cfg, s, id, queue, msgs);
    }

    /** Merges what was received, in the given order of senders, and opens the partition request. It
        stops, with nothing changed, at a transaction that is not homed here under the new map. */
    method ProposePartition(order: seq<ShardId>) returns (panicked: bool, atm: AccountTransfer)
      requires Valid() && accountTransferRound < |modifiedMap| && forall k :: k in order ==> k in accountStateTx
      modifies this`stage, pool, pool.buf
      ensures Valid() && (pool.buf == old(pool.buf) || fresh(pool.buf))
      ensures panicked <==>
        exists tx :: tx in MergedTxs(accountStateTx, order) && ErrorTx(modifiedMap[accountTransferRound], id, tx)
      ensures panicked <==>
        exists tx :: tx in MergedTxs(accountStateTx, order)
          && var placer, m := if tx.relayed then tx.recipient else tx.sender, modifiedMap[accountTransferRound];
             (if placer in m then m[placer] else 0) != id
      ensures panicked ==> Value() == old(Value())
      ensures !panicked ==> Value() == OpenPartition(old(Value()), order) && stage == PartitionOpen(atm)
    {
      var m, accounts, txs := modifiedMap[accountTransferRound], map[], [];
      for i := 0 to |order|
        invariant accounts == MergedAccounts(accountStateTx, order[..i]) && txs == MergedTxs(accountStateTx, order[..i])
      {
        assert order[..i + 1][..i] == order[..i];
        accounts := accounts + accountStateTx[order[i]].accounts;
        txs := txs + accountStateTx[order[i]].txs;
      }
      assert order[..|order|] == order;
      atm := AccountTransfer(m, accounts, |modifiedMap|);
      for i := 0 to |txs|
        invariant forall j :: 0 <= j < i ==> !ErrorTx(m, id, txs[j])
      {
        var anchor := if txs[i].relayed then txs[i].recipient else txs[i].sender;
        if (if anchor in m then m[anchor] else 0) != id {
          assert ErrorTx(m, id, txs[i]);
          return true, atm;
        }
      }
      panicked := false;
      pool.AddTxs2Pool(txs);
      stage := PartitionOpen(atm);
    }

    /** Lays the map of a committed partition request over the chain's partition map. */
    method UpdatePartitionMap(m: PartitionMap)
      requires Valid()
      modifies chain`partitionMap
      ensures Valid() && chain.partitionMap == old(chain.partitionMap) + m
    {
      var keys := m.Keys;
      ghost var before := chain.partitionMap;
      while keys != {}
        invariant keys <= m.Keys && Valid()
        invariant chain.partitionMap == before + map a | a in m.Keys - keys :: m[a]
        decreases keys
      {
        var a :| a in keys;
        keys := keys - {a};
        chain.UpdatePartitionMap(a, m[a]);
      }
      assert (map a | a in m.Keys - keys :: m[a]) == m;
    }

    /** The chain's part of committing a partition request. */
    method MigrateChain(m: PartitionMap, ac: seq<Addr>, states: seq<AccountState>)
      requires Valid() && |ac| == |states|
      modifies chain
      ensures Valid() && chain.partitionMap == old(chain.partitionMap) + m
      ensures chain.State() == AddAccounts(Site(cfg, chain.partitionMap, id), old(chain.State()), Listed(ac, states))
      ensures old(chain.Faithful()) ==> chain.Faithful()
      ensures Perform(cfg, id, old(chain.Snapshot()), Commit(PartitionRequest(m, ac, states))) == Some(chain.Snapshot())
    {
      UpdatePartitionMap(m);
      var added := chain.AddAccounts(ac, states, m);
    }

    /** The migration record's part. */
    method ResetRecord(atm: AccountTransfer)
      modifies this
      ensures modifiedMap == if |old(modifiedMap)| != atm.atid then old(modifiedMap) + [atm.pmap] else old(modifiedMap)
      ensures accountTransferRound == atm.atid && accountStateTx == map[] && partitionReady == {}
      ensures !partitionOn && !collectOver && sequenceID == old(sequenceID) + 1 && stage == Idle
      ensures readySeq == old(readySeq) && seqIDMap == old(seqIDMap)
    {
      if |modifiedMap| != atm.atid {
        modifiedMap := modifiedMap + [atm.pmap];
      }
      accountTransferRound := atm.atid;
      accountStateTx := map[];
      partitionOn, collectOver, partitionReady := false, false, {};
      sequenceID, stage := sequenceID + 1, Idle;
    }

    /** Commits a partition request whose accounts are listed in `ac` and `states`. */
    method AccountTransferDo(atm: AccountTransfer, ac: seq<Addr>, states: seq<AccountState>)
      requires Valid() && |ac| == |states| && Listed(ac, states) == atm.accounts
      modifies this, chain
      ensures Valid() && Value() == CommitPartition(cfg, old(Value()), id, atm)
      ensures old(chain.Faithful()) ==> chain.Faithful()
    {
      ghost var s := Value();
      MigrateChain(atm.pmap, ac, states);
      ResetRecord(atm);
      PartitionDone(cfg, s, id, atm, chain.State(), modifiedMap);
    }
  }

  /** A fresh leader that takes transactions in, mines a block of them and commits it. If they belong
      here it ends in the model's state, and its chain says what its state is. */
  method InjectMineCommit(cfg: Config, id: ShardId, txs: seq<Tx>, max: nat)
    returns (leader: Leader, panicked: bool, msgs: seq<Packet>)
    ensures fresh(leader) && leader.Valid() && leader.chain.Faithful()
    ensures var site, body := Site(cfg, map[], id), txs[..Least(max, |txs|)];
      (panicked <==> Foreign(site, body)) && leader.chain.State() == Execute(site, map[], body)
      && (!panicked ==>
            leader.Value() == FRESH_SHARD.(queue := txs[|body|..], accounts := leader.chain.State(), seqId := 2))
  {
    leader := new Leader(cfg, id);
    leader.HandleInjectTx(txs);
    assert [] + txs == txs && leader.Value() == FRESH_SHARD.(queue := txs);
    panicked, msgs := leader.MineAndCommit(max);
  }
}
