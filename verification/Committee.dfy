/**
 The supervisor's committee in CLPA mode: it sends transactions to the home of their sender, feeds
 the graph with finished transactions, runs the partitioner once per epoch, and reseeds the graph.
 */
module Committee {
  import opened Ledger
  import opened Shards
  import opened Protocol
  import opened Rounds
  import G = Graphs
  import opened Clpa

  /** The transactions whose sender has its home in shard `k`, in their order. */
  function ToShard(cfg: Config, pmap: PartitionMap, txs: seq<Tx>, k: ShardId): seq<Tx> {
    if txs == [] then []
    else
      var tx := txs[|txs| - 1];
      ToShard(cfg, pmap, txs[..|txs| - 1], k) + if HomeOf(cfg, pmap, tx.sender) == k then [tx] else []
  }

  /** A shard is sent a transaction as often as it is listed if the sender lives there, and else not at all. */
  lemma {:induction false} ToShardBySender(cfg: Config, pmap: PartitionMap, txs: seq<Tx>, k: ShardId, tx: Tx)
    ensures multiset(ToShard(cfg, pmap, txs, k))[tx]
         == if HomeOf(cfg, pmap, tx.sender) == k then multiset(txs)[tx] else 0
  {
    if txs != [] {
      var init, last := txs[..|txs| - 1], txs[|txs| - 1];
      assert txs == init + [last];
      ToShardBySender(cfg, pmap, init, k, tx);
    }
  }

  /** Everything the messages inject into shard `k`. */
  function InjectedTo(msgs: seq<Packet>, k: ShardId): seq<Tx> {
    if msgs == [] then []
    else
      var last := msgs[|msgs| - 1];
      InjectedTo(msgs[..|msgs| - 1], k) + if last.Inject? && last.to == k then last.txs else []
  }

  /** Shard `k` is injected each transaction as often as it is listed if its sender lives there, else not. */
  ghost predicate SentBySender(cfg: Config, pmap: PartitionMap, txs: seq<Tx>, msgs: seq<Packet>, k: ShardId) {
    forall tx :: multiset(InjectedTo(msgs, k))[tx] == if HomeOf(cfg, pmap, tx.sender) == k then multiset(txs)[tx] else 0
  }

  lemma InjectedBySender(cfg: Config, pmap: PartitionMap, txs: seq<Tx>, msgs: seq<Packet>, k: ShardId)
    requires InjectedTo(msgs, k) == ToShard(cfg, pmap, txs, k)
    ensures SentBySender(cfg, pmap, txs, msgs, k)
  {
    forall tx
      ensures multiset(InjectedTo(msgs, k))[tx] == if HomeOf(cfg, pmap, tx.sender) == k then multiset(txs)[tx] else 0
    {
      ToShardBySender(cfg, pmap, txs, k, tx);
    }
  }

  function PendingFor(sendToShard: map<ShardId, seq<Tx>>, k: ShardId): seq<Tx> {
    if k in sendToShard then sendToShard[k] else []
  }

  /** What was sent to each shard and what is collected for it are the first `n` transactions of it. */
  ghost predicate Sending(cfg: Config, pmap: PartitionMap, txs: seq<Tx>, n: nat, msgs: seq<Packet>,
                          sendToShard: map<ShardId, seq<Tx>>)
  {
    n <= |txs| && forall k: nat :: k < cfg.shards ==> SendingTo(cfg, pmap, txs, n, msgs, sendToShard, k)
  }

  ghost predicate SendingTo(cfg: Config, pmap: PartitionMap, txs: seq<Tx>, n: nat, msgs: seq<Packet>,
                            sendToShard: map<ShardId, seq<Tx>>, k: ShardId)
    requires n <= |txs|
  {
    InjectedTo(msgs, k) + PendingFor(sendToShard, k) == ToShard(cfg, pmap, txs[..n], k)
  }

  lemma CollectOne(cfg: Config, pmap: PartitionMap, txs: seq<Tx>, n: nat, msgs: seq<Packet>,
      sendToShard: map<ShardId, seq<Tx>>)
    requires Sending(cfg, pmap, txs, n, msgs, sendToShard) && n < |txs|
    ensures var home := HomeOf(cfg, pmap, txs[n].sender);
      Sending(cfg, pmap, txs, n + 1, msgs, sendToShard[home := PendingFor(sendToShard, home) + [txs[n]]])
  {
    var home := HomeOf(cfg, pmap, txs[n].sender);
    var after := sendToShard[home := PendingFor(sendToShard, home) + [txs[n]]];
    var m := n + 1;
    assert txs[..m][..n] == txs[..n];
    forall k: nat | k < cfg.shards ensures SendingTo(cfg, pmap, txs, m, msgs, after, k) {
      assert SendingTo(cfg, pmap, txs, n, msgs, sendToShard, k);
      if k == home {
        assert InjectedTo(msgs, k) + (PendingFor(sendToShard, k) + [txs[n]])
            == (InjectedTo(msgs, k) + PendingFor(sendToShard, k)) + [txs[n]];
      } else {
        assert ToShard(cfg, pmap, txs[..n], k) + [] == ToShard(cfg, pmap, txs[..n], k);
      }
    }
  }

  /** One injection message to every shard below `n`. */
  function Batch(sendToShard: map<ShardId, seq<Tx>>, n: nat): seq<Packet> {
    if n == 0 then [] else Batch(sendToShard, n - 1) + [Inject(n - 1, PendingFor(sendToShard, n - 1))]
  }

  lemma InjectedSnoc(msgs: seq<Packet>, last: Packet, k: ShardId)
    requires last.Inject?
    ensures InjectedTo(msgs + [last], k) == InjectedTo(msgs, k) + if last.to == k then last.txs else []
  {
    assert (msgs + [last])[..|msgs + [last]| - 1] == msgs;
  }

  lemma {:induction false} InjectedConcat(xs: seq<Packet>, ys: seq<Packet>, k: ShardId)
    ensures InjectedTo(xs + ys, k) == InjectedTo(xs, k) + InjectedTo(ys, k)
  {
    if ys == [] {
      assert xs + ys == xs;
    } else {
      var init, last := ys[..|ys| - 1], ys[|ys| - 1];
      var tail := if last.Inject? && last.to == k then last.txs else [];
      assert (xs + ys)[..|xs + ys| - 1] == xs + init;
      InjectedConcat(xs, init, k);
      assert InjectedTo(xs + ys, k) == InjectedTo(xs + init, k) + tail;
      assert InjectedTo(ys, k) == InjectedTo(init, k) + tail;
      assert InjectedTo(xs, k) + InjectedTo(init, k) + tail == InjectedTo(xs, k) + (InjectedTo(init, k) + tail);
    }
  }

  lemma {:induction false} BatchInjects(sendToShard: map<ShardId, seq<Tx>>, n: nat, k: ShardId)
    ensures InjectedTo(Batch(sendToShard, n), k) == if k < n then PendingFor(sendToShard, k) else []
  {
    if n > 0 {
      var j := n - 1;
      BatchInjects(sendToShard, j, k);
      BatchStep(sendToShard, j, k);
      assert [] + PendingFor(sendToShard, j) == PendingFor(sendToShard, j);
    }
  }

  lemma BatchStep(sendToShard: map<ShardId, seq<Tx>>, n: nat, k: ShardId)
    ensures InjectedTo(Batch(sendToShard, n + 1), k)
         == if k == n then InjectedTo(Batch(sendToShard, n), k) + PendingFor(sendToShard, n)
            else InjectedTo(Batch(sendToShard, n), k)
  {
    var prev, last := Batch(sendToShard, n), Inject(n, PendingFor(sendToShard, n));
    assert Batch(sendToShard, n + 1) == prev + [last];
    InjectedSnoc(prev, last, k);
    assert InjectedTo(prev, k) + [] == InjectedTo(prev, k);
  }

  lemma FlushAll(cfg: Config, pmap: PartitionMap, txs: seq<Tx>, n: nat, msgs: seq<Packet>,
      sendToShard: map<ShardId, seq<Tx>>)
    requires Sending(cfg, pmap, txs, n, msgs, sendToShard)
    ensures Sending(cfg, pmap, txs, n, msgs + Batch(sendToShard, cfg.shards), map[])
  {
    forall k: nat | k < cfg.shards
      ensures SendingTo(cfg, pmap, txs, n, msgs + Batch(sendToShard, cfg.shards), map[], k)
    {
      assert SendingTo(cfg, pmap, txs, n, msgs, sendToShard, k);
      BatchInjects(sendToShard, cfg.shards, k);
      InjectedConcat(msgs, Batch(sendToShard, cfg.shards), k);
    }
  }

  class Committee {
    const cfg: Config
    const maxIterations: nat
    const score: Score
    var modifiedMap: PartitionMap
    var clpaGraph: ClpaState
    var curEpoch: nat
    var clpaCnt: nat
    /** Every map handed out so far. */
    ghost var issued: seq<PartitionMap>

    ghost predicate Valid()
      reads this`modifiedMap, this`clpaGraph, this`clpaCnt, this`issued
      reads clpaGraph`vertices, clpaGraph`edgeSet, clpaGraph`part, clpaGraph`edges, clpaGraph`edges2Shard
      reads clpaGraph`vertexsNumInShard, clpaGraph.vertexsNumInShard
    {
      && cfg.Valid() && clpaCnt == |issued|
      && clpaGraph.Valid() && clpaGraph.shardNum == cfg.shards && clpaGraph.defaultShard == cfg.defaultHome
      && clpaGraph.maxIterations == maxIterations
      && modifiedMap == Overlay(issued, |issued|)
      && SameHomes(clpaGraph.part)
    }

    /** The assignment gives every vertex the home the lookup gives it. */
    ghost predicate SameHomes(part: G.Assignment)
      reads this`modifiedMap
    {
      modifiedMap.Keys <= part.Keys && forall v :: v in part ==> part[v] == HomeOf(cfg, modifiedMap, v)
    }

    /** The supervisor of the protocol model. */
    ghost function Value(): Supervisor
      reads this`modifiedMap, this`issued, this`curEpoch
    {
      Supervisor(modifiedMap, issued, curEpoch)
    }

    constructor (c: Config, iterations: nat, scoring: Score)
      requires c.Valid()
      ensures Valid() && fresh(clpaGraph) && fresh(clpaGraph.edges2Shard) && fresh(clpaGraph.vertexsNumInShard)
      ensures Value() == Supervisor(map[], [], 0) && cfg == c && maxIterations == iterations
    {
      cfg, maxIterations, score := c, iterations, scoring;
      modifiedMap, curEpoch, clpaCnt, issued := map[], 0, 0, [];
      clpaGraph := new ClpaState(c.shards, iterations, c.defaultHome, map[], scoring);
    }

    method FetchModifiedMap(key: Addr) returns (k: ShardId)
      ensures k == HomeOf(cfg, modifiedMap, key)
    {
      if key !in modifiedMap {
        return cfg.defaultHome(key);
      }
      k := modifiedMap[key];
    }

    /** Sends every transaction to the home of its sender: each shard is injected exactly the
        transactions whose sender lives there, in order, however they are batched. */
    method TxSending(txlist: seq<Tx>, injectSpeed: nat) returns (msgs: seq<Packet>)
      requires injectSpeed > 0
      ensures forall k: nat :: k < cfg.shards ==> InjectedTo(msgs, k) == ToShard(cfg, modifiedMap, txlist, k)
      ensures forall k: nat :: k < cfg.shards ==> SentBySender(cfg, modifiedMap, txlist, msgs, k)
    {
      msgs := SendAll(txlist, injectSpeed);
      forall k: nat | k < cfg.shards ensures SentBySender(cfg, modifiedMap, txlist, msgs, k) {
        InjectedBySender(cfg, modifiedMap, txlist, msgs, k);
      }
    }

    method SendAll(txlist: seq<Tx>, injectSpeed: nat) returns (msgs: seq<Packet>)
      requires injectSpeed > 0
      ensures forall k: nat :: k < cfg.shards ==> InjectedTo(msgs, k) == ToShard(cfg, modifiedMap, txlist, k)
    {
      msgs := [];
      var sendToShard: map<ShardId, seq<Tx>> := map[];
      assert Sending(cfg, modifiedMap, txlist, 0, msgs, sendToShard);
      for idx := 0 to |txlist|
        invariant Sending(cfg, modifiedMap, txlist, idx, msgs, sendToShard)
        invariant idx == 0 ==> sendToShard == map[]
      {
        if idx > 0 && idx % injectSpeed == 0 {
          FlushAll(cfg, modifiedMap, txlist, idx, msgs, sendToShard);
          msgs := Flush(msgs, sendToShard);
          sendToShard := map[];
        }
        CollectOne(cfg, modifiedMap, txlist, idx, msgs, sendToShard);
        var home := FetchModifiedMap(txlist[idx].sender);
        sendToShard := sendToShard[home := PendingFor(sendToShard, home) + [txlist[idx]]];
      }
      assert txlist[..|txlist|] == txlist;
      if |txlist| > 0 {
        FlushAll(cfg, modifiedMap, txlist, |txlist|, msgs, sendToShard);
        msgs := Flush(msgs, sendToShard);
        sendToShard := map[];
      }
      forall k: nat | k < cfg.shards ensures InjectedTo(msgs, k) == ToShard(cfg, modifiedMap, txlist, k) {
        assert SendingTo(cfg, modifiedMap, txlist, |txlist|, msgs, sendToShard, k);
        assert InjectedTo(msgs, k) + [] == InjectedTo(msgs, k);
      }
    }

    method Flush(msgs: seq<Packet>, sendToShard: map<ShardId, seq<Tx>>) returns (all: seq<Packet>)
      ensures all == msgs + Batch(sendToShard, cfg.shards)
    {
      all := msgs;
      for sid := 0 to cfg.shards
        invariant all == msgs + Batch(sendToShard, sid)
      {
        all := all + [Inject(sid, if sid in sendToShard then sendToShard[sid] else [])];
      }
    }

    /** A block report: the epoch steps on when the report is of the next one, and the finished
        transactions become edges of the graph. */
    method HandleBlockInfo(epoch: nat, bodyLength: nat, innerShardTxs: seq<Tx>, relay2Txs: seq<Tx>)
      requires Valid()
      modifies this`curEpoch, clpaGraph, clpaGraph.vertexsNumInShard
      ensures Valid() && clpaGraph.edges2Shard == old(clpaGraph.edges2Shard)
      ensures clpaGraph.vertexsNumInShard == old(clpaGraph.vertexsNumInShard)
      ensures Value() == old(Value()).(curEpoch := if old(curEpoch) + 1 == epoch then epoch else old(curEpoch))
      ensures Value() == EpochNoted(old(Value()), epoch)
      ensures clpaGraph.edges
        == old(clpaGraph.edges) + if bodyLength == 0 then [] else EdgesOf(innerShardTxs + relay2Txs)
      ensures forall a: Addr, b: Addr ::
        G.Joining(clpaGraph.edges, a, b) == G.Joining(old(clpaGraph.edges), a, b)
        + if bodyLength == 0 then 0 else Between(innerShardTxs, a, b) + Between(relay2Txs, a, b)
      ensures bodyLength > 0 ==> forall tx :: tx in innerShardTxs || tx in relay2Txs ==>
        tx.sender in clpaGraph.vertices && tx.recipient in clpaGraph.vertices
      ensures old(clpaGraph.vertices) <= clpaGraph.vertices
      ensures forall v :: v in clpaGraph.vertices && v !in old(clpaGraph.vertices) ==>
        bodyLength > 0 && exists tx :: (tx in innerShardTxs || tx in relay2Txs) && (v == tx.sender || v == tx.recipient)
    {
      if curEpoch + 1 == epoch {
        curEpoch := epoch;
      }
      if bodyLength == 0 {
        return;
      }
      AddAll(innerShardTxs + relay2Txs);
      forall a: Addr, b: Addr
        ensures G.Joining(clpaGraph.edges, a, b) == G.Joining(old(clpaGraph.edges), a, b)
          + Between(innerShardTxs, a, b) + Between(relay2Txs, a, b)
      {
        G.JoiningConcat(old(clpaGraph.edges), EdgesOf(innerShardTxs + relay2Txs), a, b);
        EdgesJoin(innerShardTxs + relay2Txs, a, b);
        BetweenConcat(innerShardTxs, relay2Txs, a, b);
      }
    }

    static ghost function Parties(txs: seq<Tx>): set<Addr> {
      (set tx | tx in txs :: tx.sender) + (set tx | tx in txs :: tx.recipient)
    }

    static lemma PartiesSnoc(txs: seq<Tx>, n: nat)
      requires n < |txs|
      ensures Parties(txs[..n + 1]) == Parties(txs[..n]) + {txs[n].sender, txs[n].recipient}
    {
      assert txs[..n + 1] == txs[..n] + [txs[n]];
    }

    static function EdgesOf(txs: seq<Tx>): seq<G.Edge> {
      if txs == [] then []
      else EdgesOf(txs[..|txs| - 1]) + [(txs[|txs| - 1].sender, txs[|txs| - 1].recipient)]
    }

    /** Number of the transactions between two addresses, in either direction. */
    static function Between(txs: seq<Tx>, a: Addr, b: Addr): nat {
      if txs == [] then 0
      else
        var tx := txs[|txs| - 1];
        Between(txs[..|txs| - 1], a, b)
          + if (tx.sender == a && tx.recipient == b) || (tx.sender == b && tx.recipient == a) then 1 else 0
    }

    static lemma {:induction false} BetweenConcat(xs: seq<Tx>, ys: seq<Tx>, a: Addr, b: Addr)
      ensures Between(xs + ys, a, b) == Between(xs, a, b) + Between(ys, a, b)
    {
      if ys == [] {
        assert xs + ys == xs;
      } else {
        assert (xs + ys)[..|xs + ys| - 1] == xs + ys[..|ys| - 1];
        BetweenConcat(xs, ys[..|ys| - 1], a, b);
      }
    }

    /** As many edges join two addresses as there are transactions between them. */
    static lemma {:induction false} EdgesJoin(txs: seq<Tx>, a: Addr, b: Addr)
      ensures G.Joining(EdgesOf(txs), a, b) == Between(txs, a, b)
    {
      if txs != [] {
        EdgesJoin(txs[..|txs| - 1], a, b);
      }
    }

    method AddAll(txs: seq<Tx>)
      requires Valid()
      modifies clpaGraph, clpaGraph.vertexsNumInShard
      ensures Valid() && clpaGraph.edges == old(clpaGraph.edges) + EdgesOf(txs)
      ensures clpaGraph.vertices == old(clpaGraph.vertices) + Parties(txs)
      ensures clpaGraph.edges2Shard == old(clpaGraph.edges2Shard)
      ensures clpaGraph.vertexsNumInShard == old(clpaGraph.vertexsNumInShard)
    {
      ghost var edges, vertices := clpaGraph.edges, clpaGraph.vertices;
      for i := 0 to |txs|
        invariant Valid() && Grown(edges, vertices, txs[..i])
        invariant clpaGraph.edges2Shard == old(clpaGraph.edges2Shard)
        invariant clpaGraph.vertexsNumInShard == old(clpaGraph.vertexsNumInShard)
      {
        AddOne(txs[i]);
        GrownSnoc(edges, vertices, txs, i);
      }
      assert txs[..|txs|] == txs;
    }

    /** The graph is `edges` and `vertices` and what the transactions add. */
    ghost predicate Grown(edges: seq<G.Edge>, vertices: set<G.Vertex>, txs: seq<Tx>)
      reads this`clpaGraph, clpaGraph`edges, clpaGraph`vertices
    {
      clpaGraph.edges == edges + EdgesOf(txs) && clpaGraph.vertices == vertices + Parties(txs)
    }

    lemma GrownSnoc(edges: seq<G.Edge>, vertices: set<G.Vertex>, txs: seq<Tx>, n: nat)
      requires n < |txs|
      requires clpaGraph.edges == edges + EdgesOf(txs[..n]) + [(txs[n].sender, txs[n].recipient)]
      requires clpaGraph.vertices == vertices + Parties(txs[..n]) + {txs[n].sender, txs[n].recipient}
      ensures Grown(edges, vertices, txs[..n + 1])
    {
      assert txs[..n + 1][..n] == txs[..n];
      PartiesSnoc(txs, n);
    }

    method AddOne(tx: Tx)
      requires Valid()
      modifies clpaGraph, clpaGraph.vertexsNumInShard
      ensures Valid() && clpaGraph.edges == old(clpaGraph.edges) + [(tx.sender, tx.recipient)]
      ensures clpaGraph.vertices == old(clpaGraph.vertices) + {tx.sender, tx.recipient}
      ensures clpaGraph.edges2Shard == old(clpaGraph.edges2Shard)
      ensures clpaGraph.vertexsNumInShard == old(clpaGraph.vertexsNumInShard)
    {
      clpaGraph.AddEdge(tx.sender, tx.recipient);
    }

    /** A new graph whose assignment is the modified map. */
    method ClpaReset()
      requires cfg.Valid() && forall a :: a in modifiedMap ==> modifiedMap[a] < cfg.shards
      modifies this`clpaGraph
      ensures fresh(clpaGraph) && fresh(clpaGraph.edges2Shard) && fresh(clpaGraph.vertexsNumInShard)
      ensures clpaGraph.Valid() && clpaGraph.part == modifiedMap && clpaGraph.edges == []
      ensures clpaGraph.shardNum == cfg.shards && clpaGraph.defaultShard == cfg.defaultHome
      ensures clpaGraph.maxIterations == maxIterations
    {
      clpaGraph := new ClpaState(cfg.shards, maxIterations, cfg.defaultHome, modifiedMap, score);
    }

    /** One epoch: the partitioner's map is handed out and laid over the modified map, and the graph
        is reseeded. Afterwards the lookup gives every vertex of the old graph the shard the
        partitioner ended with, the reseeded graph agrees with the lookup, and the supervisor is
        that of the model after issuing the map. */
    method RunEpoch() returns (mmap: PartitionMap, ghost ended: G.Assignment)
      requires Valid() && curEpoch == clpaCnt
      modifies this`modifiedMap, this`clpaGraph, this`clpaCnt, this`issued
      modifies clpaGraph, clpaGraph.edges2Shard, clpaGraph.vertexsNumInShard
      ensures Valid() && fresh(clpaGraph)
      ensures InRange(cfg, mmap) && clpaCnt == old(clpaCnt) + 1
      ensures Value() == Supervisor(old(modifiedMap) + mmap, old(issued) + [mmap], old(curEpoch))
      ensures ended == old(clpaGraph.part) + mmap
      ensures forall v :: v in ended ==> HomeOf(cfg, modifiedMap, v) == ended[v]
      ensures clpaGraph.part == modifiedMap && clpaGraph.edges == []
    {
      clpaCnt := clpaCnt + 1;
      ghost var before := clpaGraph.part;
      mmap := RunPartition();
      ended := clpaGraph.part;
      EpochAgrees(cfg, modifiedMap, before, mmap);
      MapInRange(clpaGraph, before, mmap);
      MapsInRange(cfg, modifiedMap, before, mmap);
      OverlayExtends(issued, mmap, |issued|);
      modifiedMap := modifiedMap + mmap;
      issued := issued + [mmap];
      ClpaReset();
    }

    /** A run of the partitioner on the graph. */
    method RunPartition() returns (mmap: PartitionMap)
      requires clpaGraph.Valid()
      modifies clpaGraph, clpaGraph.edges2Shard, clpaGraph.vertexsNumInShard
      ensures clpaGraph.Valid() && clpaGraph.part == old(clpaGraph.part) + mmap
    {
      var cross;
      ghost var moves, log, rounds;
      mmap, cross, moves, log, rounds := clpaGraph.Partition();
    }

    lemma MapInRange(graph: ClpaState, before: G.Assignment, mmap: PartitionMap)
      requires graph.Shape() && graph.part == before + mmap && graph.shardNum == cfg.shards
      ensures InRange(cfg, mmap)
    {
      forall a | a in mmap ensures mmap[a] < cfg.shards {
        assert graph.part[a] == mmap[a];
      }
    }
  }

  lemma MapsInRange(cfg: Config, modified: PartitionMap, part: G.Assignment, mmap: PartitionMap)
    requires modified.Keys <= part.Keys && forall v :: v in part ==> part[v] == HomeOf(cfg, modified, v)
    requires (forall v :: v in part + mmap ==> (part + mmap)[v] < cfg.shards) && InRange(cfg, mmap)
    ensures forall a :: a in modified + mmap ==> (modified + mmap)[a] < cfg.shards
  {
    forall a | a in modified + mmap ensures (modified + mmap)[a] < cfg.shards {
      assert a in part + mmap;
      if a !in mmap {
        assert (part + mmap)[a] == part[a] == modified[a];
      }
    }
  }

  /** Laying the partitioner's map over the lookup and over the old assignment agree. */
  lemma EpochAgrees(cfg: Config, modified: PartitionMap, part: G.Assignment, mmap: PartitionMap)
    requires modified.Keys <= part.Keys && forall v :: v in part ==> part[v] == HomeOf(cfg, modified, v)
    ensures forall v :: v in part + mmap ==> HomeOf(cfg, modified + mmap, v) == (part + mmap)[v]
  {
  }
}
