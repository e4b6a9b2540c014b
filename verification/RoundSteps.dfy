/** Every step of the system keeps the round structure. */
module RoundSteps {
  import opened Basics
  import opened Ledger
  import opened Shards
  import opened Protocol
  import opened Rounds

  /** The two shard states look alike to the round structure. */
  ghost predicate SameRounds(x: Shard, y: Shard) {
    && x.pmap == y.pmap && x.seqId == y.seqId && x.maps == y.maps && x.round == y.round
    && x.partitionOn == y.partitionOn && x.ready == y.ready && x.readySeq == y.readySeq
    && x.heard == y.heard && x.received == y.received && x.collectOver == y.collectOver
    && Declared(x) == Declared(y) && Shipped(x) == Shipped(y)
  }

  /** ... or at least to what holds between pairs of shards. */
  ghost predicate SamePairs(x: Shard, y: Shard) {
    && x.seqId == y.seqId && x.round == y.round && x.ready == y.ready && x.readySeq == y.readySeq
    && x.heard == y.heard && x.received == y.received
    && Declared(x) == Declared(y) && Shipped(x) == Shipped(y)
  }

  lemma QuietPairs(shards: seq<Shard>, net: seq<Packet>, k: ShardId, sh: Shard)
    requires k < |shards| && SamePairs(shards[k], sh) && PairsOk(shards, net)
    ensures PairsOk(shards[k := sh], net)
  {
    var after := shards[k := sh];
    forall i: nat, j: nat | i < |after| && j < |after| ensures PairOk(after, net, i, j) {
      KnownPair(shards, net, i, j);
    }
  }

  lemma QuietPackets(shards: seq<Shard>, issued: seq<PartitionMap>, net: seq<Packet>, k: ShardId, sh: Shard)
    requires k < |shards| && SameRounds(shards[k], sh) && PacketsOk(shards, issued, net)
    ensures PacketsOk(shards[k := sh], issued, net)
  {
    forall pkt | pkt in net ensures PacketOk(shards[k := sh], issued, pkt) {
      KnownPacket(shards, issued, net, pkt);
    }
  }

  /** Steps that only move transactions, or open a proposal. */
  lemma QuietRounds(cfg: Config, s: System, k: ShardId, sh: Shard)
    requires InRounds(cfg, s) && k < |s.shards| && SameRounds(s.shards[k], sh)
    requires ShardOk(cfg, s.sup.issued, sh, k)
    ensures InRounds(cfg, s.(shards := s.shards[k := sh]))
  {
    QuietPairs(s.shards, s.net, k, sh);
    QuietPackets(s.shards, s.sup.issued, s.net, k, sh);
    ShardsReplaced(cfg, s.sup.issued, s.shards, k, sh);
  }

  /** Puts the pieces together after shard `k` became `t` and the messages became `net`. */
  lemma Assemble(cfg: Config, s: System, s': System, k: ShardId, t: Shard)
    requires InRounds(cfg, s) && k < |s.shards|
    requires s'.shards == s.shards[k := t] && s'.sup == s.sup
    requires ShardOk(cfg, s.sup.issued, t, k) && Shipped(s.shards[k]) <= Shipped(t)
    requires PacketsOk(s'.shards, s.sup.issued, s'.net) && PairsOk(s'.shards, s'.net) && LinksOrdered(s'.net)
    requires RelaysCommitted(s'.net, s'.hist.committed)
    requires Count(s'.net, MapTag(k)) + Got(t) == |s.sup.issued|
    requires forall j: nat :: j != k ==> Count(s'.net, MapTag(j)) == Count(s.net, MapTag(j))
    ensures InRounds(cfg, s')
  {
    ShardsReplaced(cfg, s.sup.issued, s.shards, k, t);
  }

  lemma OpenBlockRounds(cfg: Config, s: System, k: ShardId, size: nat)
    requires InRounds(cfg, s) && Enabled(cfg, s, OpenBlockStep(k, size))
    ensures InRounds(cfg, Do(cfg, s, OpenBlockStep(k, size)))
  {
    KnownShard(cfg, s.sup.issued, s.shards, k);
    QuietRounds(cfg, s, k, OpenBlock(s.shards[k], size));
  }

  lemma OpenPartitionRounds(cfg: Config, s: System, k: ShardId, order: seq<ShardId>)
    requires InRounds(cfg, s) && Enabled(cfg, s, OpenPartitionStep(k, order))
    ensures InRounds(cfg, Do(cfg, s, OpenPartitionStep(k, order)))
  {
    var sh := s.shards[k];
    KnownShard(cfg, s.sup.issued, s.shards, k);
    QuietRounds(cfg, s, k, OpenPartition(sh, order));
  }

  // ---------- Supervisor ----------

  lemma AllCaughtUp(cfg: Config, s: System, k: ShardId)
    requires InRounds(cfg, s) && s.sup.curEpoch == |s.sup.issued| && k < |s.shards|
    ensures Got(s.shards[k]) == Shipped(s.shards[k]) == |s.sup.issued|
  {
    KnownShard(cfg, s.sup.issued, s.shards, k);
  }

  /** Appending a batch without ready messages and shipments keeps the pairs. */
  lemma PairsAfterAppend(shards: seq<Shard>, net: seq<Packet>, more: seq<Packet>)
    requires PairsOk(shards, net)
    requires forall tag: Tag :: tag.ReadyTag? || tag.ShipTag? ==> Count(more, tag) == 0
    ensures PairsOk(shards, net + more)
  {
    forall i: nat, k: nat | i < |shards| && k < |shards| ensures PairOk(shards, net + more, i, k) {
      KnownPair(shards, net, i, k);
      CountConcat(net, more, ReadyTag(i, k));
      CountConcat(net, more, ShipTag(i, k));
    }
  }

  lemma InjectRounds(cfg: Config, s: System, k: ShardId, txs: seq<Tx>)
    requires InRounds(cfg, s) && Enabled(cfg, s, InjectStep(k, txs))
    ensures InRounds(cfg, Do(cfg, s, InjectStep(k, txs)))
  {
    var pkt := Inject(k, txs);
    AllCaughtUp(cfg, s, k);
    forall tag | tag != NoTag ensures Count([pkt], tag) == 0 && Count(s.net + [pkt], tag) == Count(s.net, tag) {
      CountSnoc([], pkt, tag);
      CountSnoc(s.net, pkt, tag);
    }
    PairsAfterAppend(s.shards, s.net, [pkt]);
    forall x | x in s.net && LinkOf(x) == SupervisorLink(k) ensures !x.MapMsg? {
      CountIn(s.net, x);
    }
    OrderedAppend(s.net, [pkt]);
  }

  /** Appending a batch keeps the links ordered if the batch is and fits behind what is there. */
  lemma OrderedAppend(net: seq<Packet>, more: seq<Packet>)
    requires LinksOrdered(net) && LinksOrdered(more)
    requires forall x, y :: x in net && y in more && LinkOf(x) == LinkOf(y) ==> InOrder(x, y)
    ensures LinksOrdered(net + more)
  {
    var all := net + more;
    forall p, q | 0 <= p < q < |all| && LinkOf(all[p]) == LinkOf(all[q]) ensures InOrder(all[p], all[q]) {
      if q >= |net| {
        assert all[q] == more[q - |net|];
        if p >= |net| {
          assert all[p] == more[p - |net|];
        } else {
          assert all[p] in net && all[q] in more;
        }
      }
    }
  }

  /** The same for a batch of messages that are neither relays nor injections. */
  lemma OrderedAppendOther(net: seq<Packet>, more: seq<Packet>)
    requires LinksOrdered(net) && forall pkt :: pkt in more ==> !pkt.Relay? && !pkt.Inject?
    ensures LinksOrdered(net + more)
  {
    OrderedAppend(net, more);
  }

  lemma ShardOkExtends(cfg: Config, issued: seq<PartitionMap>, m: PartitionMap, sh: Shard, k: ShardId)
    requires ShardOk(cfg, issued, sh, k)
    ensures ShardOk(cfg, issued + [m], sh, k)
  {
    OverlayExtends(issued, m, sh.round);
    assert (issued + [m])[..Got(sh)] == issued[..Got(sh)];
  }

  lemma IssuedShardsOk(cfg: Config, s: System, m: PartitionMap)
    requires InRounds(cfg, s) && Enabled(cfg, s, IssueMapStep(m))
    ensures ShardsOk(cfg, s.sup.issued + [m], s.shards)
    ensures SupervisorOk(cfg, s.shards, Do(cfg, s, IssueMapStep(m)).sup)
  {
    var issued := s.sup.issued;
    forall k: nat | k < |s.shards| ensures ShardAt(cfg, issued + [m], s.shards, k) {
      KnownShard(cfg, issued, s.shards, k);
      ShardOkExtends(cfg, issued, m, s.shards[k], k);
    }
    OverlayExtends(issued, m, |issued|);
  }

  lemma IssuedCounts(cfg: Config, s: System, m: PartitionMap)
    requires InRounds(cfg, s) && Enabled(cfg, s, IssueMapStep(m))
    ensures MapsCounted(s.shards, s.sup.issued + [m], s.net + MapMsgs(m, cfg.shards))
    ensures PairsOk(s.shards, s.net + MapMsgs(m, cfg.shards))
  {
    var more := MapMsgs(m, cfg.shards);
    forall tag | tag != NoTag
      ensures Count(more, tag) == One(tag.MapTag? && tag.to < cfg.shards)
      ensures Count(s.net + more, tag) == Count(s.net, tag) + Count(more, tag)
    {
      CountConcat(s.net, more, tag);
      MapMsgsCount(m, cfg.shards, tag);
    }
    PairsAfterAppend(s.shards, s.net, more);
  }

  lemma IssueMapRounds(cfg: Config, s: System, m: PartitionMap)
    requires InRounds(cfg, s) && Enabled(cfg, s, IssueMapStep(m))
    ensures InRounds(cfg, Do(cfg, s, IssueMapStep(m)))
  {
    IssuedShardsOk(cfg, s, m);
    IssuedPacketsOk(cfg, s, m);
    IssuedCounts(cfg, s, m);
    MapMsgsAre(m, cfg.shards);
    OrderedAppendOther(s.net, MapMsgs(m, cfg.shards));
  }

  lemma IssuedPacketsOk(cfg: Config, s: System, m: PartitionMap)
    requires InRounds(cfg, s) && Enabled(cfg, s, IssueMapStep(m))
    ensures PacketsOk(s.shards, s.sup.issued + [m], s.net + MapMsgs(m, cfg.shards))
  {
    var issued := s.sup.issued;
    MapMsgsAre(m, cfg.shards);
    forall pkt | pkt in s.net + MapMsgs(m, cfg.shards)
      ensures PacketOk(s.shards, issued + [m], pkt)
    {
      if pkt in s.net {
        KnownPacket(s.shards, issued, s.net, pkt);
        if pkt.MapMsg? {
          AllCaughtUp(cfg, s, pkt.to);
          CountIn(s.net, pkt);
        }
      } else {
        AllCaughtUp(cfg, s, pkt.to);
      }
    }
  }

  // ---------- Delivery ----------

  lemma OrderedRemove(net: seq<Packet>, p: nat)
    requires LinksOrdered(net) && p < |net|
    ensures LinksOrdered(RemoveAt(net, p))
  {
    var rest := RemoveAt(net, p);
    assert forall i :: 0 <= i < |rest| ==> rest[i] == net[if i < p then i else i + 1];
  }

  lemma CountsAfterRemove(net: seq<Packet>, p: nat)
    requires p < |net|
    ensures forall tag :: Count(net, tag) == Count(RemoveAt(net, p), tag) + One(TagOf(net[p]) == tag)
  {
    forall tag ensures Count(net, tag) == Count(RemoveAt(net, p), tag) + One(TagOf(net[p]) == tag) {
      CountRemove(net, p, tag);
    }
  }

  lemma PairsAfterRemove(shards: seq<Shard>, net: seq<Packet>, p: nat)
    requires PairsOk(shards, net) && p < |net| && !net[p].Ready? && !net[p].Shipment?
    ensures PairsOk(shards, RemoveAt(net, p))
  {
    var rest := RemoveAt(net, p);
    CountsAfterRemove(net, p);
    forall i: nat, k: nat | i < |shards| && k < |shards| ensures PairOk(shards, rest, i, k) {
      KnownPair(shards, net, i, k);
    }
  }

  /** Removing a message that is not counted. */
  lemma DropRounds(cfg: Config, s: System, p: nat)
    requires InRounds(cfg, s) && p < |s.net| && TagOf(s.net[p]) == NoTag
    ensures InRounds(cfg, s.(net := RemoveAt(s.net, p)))
  {
    CountsAfterRemove(s.net, p);
    OrderedRemove(s.net, p);
    PairsAfterRemove(s.shards, s.net, p);
  }

  lemma DeliverInjectRounds(cfg: Config, s: System, p: nat)
    requires InRounds(cfg, s) && Deliverable(cfg, s, p) && s.net[p].Inject?
    ensures InRounds(cfg, Deliver(cfg, s, p))
  {
    var k := s.net[p].to;
    DropRounds(cfg, s, p);
    KnownShard(cfg, s.sup.issued, s.shards, k);
    QuietRounds(cfg, s.(net := RemoveAt(s.net, p)), k, HandleInject(s.shards[k], s.net[p].txs));
  }

  lemma DeliverInfoRounds(cfg: Config, s: System, p: nat)
    requires InRounds(cfg, s) && Deliverable(cfg, s, p) && s.net[p].BlockInfo?
    ensures InRounds(cfg, Deliver(cfg, s, p))
  {
    DropRounds(cfg, s, p);
    KnownPacket(s.shards, s.sup.issued, s.net, s.net[p]);
    assert Shipped(s.shards[0]) <= |s.sup.issued| by {
      KnownShard(cfg, s.sup.issued, s.shards, 0);
    }
  }

  /** What stays in flight on the link of a delivered message comes after it. */
  lemma RestIsBehind(net: seq<Packet>, p: nat, pkt: Packet)
    requires LinksOrdered(net) && FirstOnLink(net, p)
    requires pkt in RemoveAt(net, p) && LinkOf(pkt) == LinkOf(net[p])
    ensures InOrder(net[p], pkt)
  {
    var rest := RemoveAt(net, p);
    var j :| 0 <= j < |rest| && rest[j] == pkt;
    assert rest[j] == net[if j < p then j else j + 1];
  }

  lemma DeliverRelayPackets(cfg: Config, s: System, p: nat)
    requires InRounds(cfg, s) && Deliverable(cfg, s, p) && s.net[p].Relay?
    ensures PacketsOk(Deliver(cfg, s, p).shards, s.sup.issued, RemoveAt(s.net, p))
  {
    var pkt := s.net[p];
    var t := Deliver(cfg, s, p);
    forall other | other in t.net ensures PacketOk(t.shards, s.sup.issued, other) {
      KnownPacket(s.shards, s.sup.issued, s.net, other);
      if other.Relay? && LinkOf(other) == LinkOf(pkt) {
        RestIsBehind(s.net, p, other);
      }
      HeardPacket(s.shards, s.sup.issued, pkt, other);
    }
  }

  /** A message stays in order when another, or an earlier one on its link, is received. */
  lemma HeardPacket(shards: seq<Shard>, issued: seq<PartitionMap>, pkt: Packet, other: Packet)
    requires pkt.Relay? && pkt.to < |shards| && PacketOk(shards, issued, other)
    requires other.Relay? && LinkOf(other) == LinkOf(pkt) ==> InOrder(pkt, other)
    ensures PacketOk(shards[pkt.to := HandleRelay(shards[pkt.to], pkt.from, pkt.txs, pkt.seqNo)], issued, other)
  {
  }

  lemma HearPairs(shards: seq<Shard>, net: seq<Packet>, from: ShardId, to: ShardId, sh: Shard, q: nat)
    requires from < |shards| && to < |shards| && PairsOk(shards, net)
    requires q < shards[from].seqId
    requires SameRounds(shards[to], sh.(heard := shards[to].heard)) && sh.heard == shards[to].heard[from := q]
    ensures PairsOk(shards[to := sh], net)
  {
    var after := shards[to := sh];
    forall i: nat, k: nat | i < |after| && k < |after| ensures PairOk(after, net, i, k) {
      KnownPair(shards, net, i, k);
    }
  }

  lemma DeliverRelayRounds(cfg: Config, s: System, p: nat)
    requires InRounds(cfg, s) && Deliverable(cfg, s, p) && s.net[p].Relay?
    ensures InRounds(cfg, Deliver(cfg, s, p))
  {
    var pkt, t := s.net[p], Deliver(cfg, s, p);
    KnownPacket(s.shards, s.sup.issued, s.net, pkt);
    CountsAfterRemove(s.net, p);
    OrderedRemove(s.net, p);
    PairsAfterRemove(s.shards, s.net, p);
    DeliverRelayPackets(cfg, s, p);
    HearPairs(s.shards, t.net, pkt.from, pkt.to, t.shards[pkt.to], pkt.seqNo);
    HearShardOk(cfg, s.sup.issued, s.shards[pkt.to], pkt.to, pkt.from, pkt.txs, pkt.seqNo) by {
      KnownShard(cfg, s.sup.issued, s.shards, pkt.to);
    }
    Assemble(cfg, s, t, pkt.to, t.shards[pkt.to]);
  }

  lemma HearShardOk(cfg: Config, issued: seq<PartitionMap>, sh: Shard, k: ShardId, from: ShardId, txs: seq<Tx>, q: nat)
    requires ShardOk(cfg, issued, sh, k) && from < cfg.shards && from != k
    ensures ShardOk(cfg, issued, HandleRelay(sh, from, txs, q), k)
  {
  }

  lemma DeliverMapPackets(cfg: Config, s: System, p: nat)
    requires InRounds(cfg, s) && Deliverable(cfg, s, p) && s.net[p].MapMsg?
    ensures PacketsOk(Deliver(cfg, s, p).shards, s.sup.issued, RemoveAt(s.net, p))
  {
    var pkt := s.net[p];
    var t := Deliver(cfg, s, p);
    KnownPacket(s.shards, s.sup.issued, s.net, pkt);
    CountRemove(s.net, p, TagOf(pkt));
    forall other | other in t.net ensures PacketOk(t.shards, s.sup.issued, other) {
      KnownPacket(s.shards, s.sup.issued, s.net, other);
      if LinkOf(other) == LinkOf(pkt) {
        RestIsBehind(s.net, p, other);
        CountIn(t.net, other);
      }
    }
  }

  lemma MapShardOk(cfg: Config, issued: seq<PartitionMap>, sh: Shard, k: ShardId, m: PartitionMap)
    requires ShardOk(cfg, issued, sh, k) && !sh.stage.Collecting?
    requires Got(sh) + 1 == |issued| <= Shipped(sh) + 1 && m == issued[Got(sh)]
    ensures ShardOk(cfg, issued, HandlePartitionMsg(sh, m), k)
  {
    assert issued[..Got(sh) + 1] == issued[..Got(sh)] + [m];
  }

  lemma DeliverMapRounds(cfg: Config, s: System, p: nat)
    requires InRounds(cfg, s) && Deliverable(cfg, s, p) && s.net[p].MapMsg?
    ensures InRounds(cfg, Deliver(cfg, s, p))
  {
    var pkt, t := s.net[p], Deliver(cfg, s, p);
    KnownPacket(s.shards, s.sup.issued, s.net, pkt);
    CountsAfterRemove(s.net, p);
    OrderedRemove(s.net, p);
    PairsAfterRemove(s.shards, s.net, p);
    DeliverMapPackets(cfg, s, p);
    QuietPairs(s.shards, t.net, pkt.to, t.shards[pkt.to]);
    MapShardOk(cfg, s.sup.issued, s.shards[pkt.to], pkt.to, pkt.pmap) by {
      KnownShard(cfg, s.sup.issued, s.shards, pkt.to);
    }
    Assemble(cfg, s, t, pkt.to, t.shards[pkt.to]);
  }

  lemma ReadyPackets(shards: seq<Shard>, issued: seq<PartitionMap>, net: seq<Packet>, p: nat, to: ShardId,
                     from: ShardId, q: nat, sh: Shard)
    requires p < |net| && to < |shards| && PacketsOk(shards, issued, net)
    requires sh == HandleReady(shards[to], from, q)
    ensures PacketsOk(shards[to := sh], issued, RemoveAt(net, p))
  {
    var after := shards[to := sh];
    forall pkt | pkt in RemoveAt(net, p) ensures PacketOk(after, issued, pkt) {
      KnownPacket(shards, issued, net, pkt);
    }
  }

  lemma ReadyPairs(shards: seq<Shard>, issued: seq<PartitionMap>, net: seq<Packet>, p: nat, sh: Shard)
    requires p < |net| && net[p].Ready? && PacketOk(shards, issued, net[p])
    requires PairsOk(shards, net)
    requires sh == HandleReady(shards[net[p].to], net[p].from, net[p].seqNo)
    ensures PairsOk(shards[net[p].to := sh], RemoveAt(net, p))
  {
    var after, rest := shards[net[p].to := sh], RemoveAt(net, p);
    CountsAfterRemove(net, p);
    KnownPair(shards, net, net[p].from, net[p].to);
    forall i: nat, k: nat | i < |after| && k < |after| ensures PairOk(after, rest, i, k) {
      KnownPair(shards, net, i, k);
    }
  }

  lemma ReadyShardOk(cfg: Config, issued: seq<PartitionMap>, sh: Shard, k: ShardId, from: ShardId, q: nat)
    requires ShardOk(cfg, issued, sh, k) && from < cfg.shards
    ensures ShardOk(cfg, issued, HandleReady(sh, from, q), k)
  {
  }

  lemma DeliverReadyRounds(cfg: Config, s: System, p: nat)
    requires InRounds(cfg, s) && Deliverable(cfg, s, p) && s.net[p].Ready?
    ensures InRounds(cfg, Deliver(cfg, s, p))
  {
    var pkt, t := s.net[p], Deliver(cfg, s, p);
    KnownPacket(s.shards, s.sup.issued, s.net, pkt);
    CountsAfterRemove(s.net, p);
    OrderedRemove(s.net, p);
    ReadyPackets(s.shards, s.sup.issued, s.net, p, pkt.to, pkt.from, pkt.seqNo, t.shards[pkt.to]);
    ReadyPairs(s.shards, s.sup.issued, s.net, p, t.shards[pkt.to]);
    ReadyShardOk(cfg, s.sup.issued, s.shards[pkt.to], pkt.to, pkt.from, pkt.seqNo) by {
      KnownShard(cfg, s.sup.issued, s.shards, pkt.to);
    }
    Assemble(cfg, s, t, pkt.to, t.shards[pkt.to]);
  }

  lemma ReceivePackets(shards: seq<Shard>, issued: seq<PartitionMap>, net: seq<Packet>, p: nat, to: ShardId, sh: Shard)
    requires p < |net| && to < |shards| && PacketsOk(shards, issued, net)
    requires SameRounds(shards[to], sh.(received := shards[to].received, collectOver := shards[to].collectOver))
    ensures PacketsOk(shards[to := sh], issued, RemoveAt(net, p))
  {
    var after := shards[to := sh];
    forall pkt | pkt in RemoveAt(net, p) ensures PacketOk(after, issued, pkt) {
      KnownPacket(shards, issued, net, pkt);
    }
  }

  lemma ReceivePairs(shards: seq<Shard>, net: seq<Packet>, p: nat, sh: Shard)
    requires p < |net| && net[p].Shipment? && net[p].from < |shards| && net[p].to < |shards| && net[p].from != net[p].to
    requires PairsOk(shards, net)
    requires var x := shards[net[p].to];
      SameRounds(x, sh.(received := x.received, collectOver := x.collectOver))
      && sh.received == x.received[net[p].from := net[p].parcel]
    ensures PairsOk(shards[net[p].to := sh], RemoveAt(net, p))
  {
    var after, rest := shards[net[p].to := sh], RemoveAt(net, p);
    CountsAfterRemove(net, p);
    forall i: nat, k: nat | i < |after| && k < |after| ensures PairOk(after, rest, i, k) {
      KnownPair(shards, net, i, k);
    }
  }

  lemma ReceiveShardOk(cfg: Config, issued: seq<PartitionMap>, sh: Shard, k: ShardId, i: ShardId, parcel: Parcel)
    requires ShardOk(cfg, issued, sh, k) && i < cfg.shards && i != k && !sh.collectOver
    requires i !in sh.received
    ensures ShardOk(cfg, issued, HandleShipment(sh, cfg.shards, i, parcel), k)
  {
  }

  lemma DeliverShipmentRounds(cfg: Config, s: System, p: nat)
    requires InRounds(cfg, s) && Deliverable(cfg, s, p) && s.net[p].Shipment?
    ensures InRounds(cfg, Deliver(cfg, s, p))
  {
    var pkt, t := s.net[p], Deliver(cfg, s, p);
    KnownPacket(s.shards, s.sup.issued, s.net, pkt);
    CountsAfterRemove(s.net, p);
    OrderedRemove(s.net, p);
    ReceivePackets(s.shards, s.sup.issued, s.net, p, pkt.to, t.shards[pkt.to]);
    ReceivePairs(s.shards, s.net, p, t.shards[pkt.to]);
    NotYetReceived(cfg, s, pkt);
    ReceiveShardOk(cfg, s.sup.issued, s.shards[pkt.to], pkt.to, pkt.from, pkt.parcel) by {
      KnownShard(cfg, s.sup.issued, s.shards, pkt.to);
    }
    Assemble(cfg, s, t, pkt.to, t.shards[pkt.to]);
  }

  lemma NotYetReceived(cfg: Config, s: System, pkt: Packet)
    requires InRounds(cfg, s) && pkt in s.net && pkt.Shipment?
    ensures pkt.to < |s.shards| && pkt.from !in s.shards[pkt.to].received && !s.shards[pkt.to].collectOver
  {
    KnownPacket(s.shards, s.sup.issued, s.net, pkt);
    KnownPair(s.shards, s.net, pkt.from, pkt.to);
    CountIn(s.net, pkt);
    AllReceived(cfg, s, pkt.to, pkt.from);
  }

  /** A shard that still misses a peer's shipment has not collected everything. */
  lemma AllReceived(cfg: Config, s: System, k: ShardId, i: ShardId)
    requires InRounds(cfg, s) && k < |s.shards| && i < |s.shards| && i != k
    ensures s.shards[k].collectOver ==> i in s.shards[k].received
  {
    var sh := s.shards[k];
    KnownShard(cfg, s.sup.issued, s.shards, k);
    if sh.collectOver {
      AllPeers(sh.received.Keys, k, cfg.shards);
    }
  }

  lemma DeliverRounds(cfg: Config, s: System, p: nat)
    requires InRounds(cfg, s) && Deliverable(cfg, s, p)
    ensures InRounds(cfg, Deliver(cfg, s, p))
  {
    match s.net[p]
    case Inject(_, _) => DeliverInjectRounds(cfg, s, p);
    case MapMsg(_, _) => DeliverMapRounds(cfg, s, p);
    case Relay(_, _, _, _) => DeliverRelayRounds(cfg, s, p);
    case Ready(_, _, _) => DeliverReadyRounds(cfg, s, p);
    case Shipment(_, _, _) => DeliverShipmentRounds(cfg, s, p);
    case BlockInfo(_, _) => DeliverInfoRounds(cfg, s, p);
  }

  // ---------- Leader stages ----------

  lemma {:induction false} CountedIsIn(net: seq<Packet>, tag: Tag)
    requires Count(net, tag) > 0
    ensures exists pkt :: pkt in net && TagOf(pkt) == tag
  {
    if TagOf(net[|net| - 1]) == tag {
      assert net[|net| - 1] in net;
    } else {
      CountedIsIn(net[..|net| - 1], tag);
      var pkt :| pkt in net[..|net| - 1] && TagOf(pkt) == tag;
      assert pkt in net;
    }
  }

  lemma CountsAfterAppend(net: seq<Packet>, more: seq<Packet>)
    ensures forall tag :: Count(net + more, tag) == Count(net, tag) + Count(more, tag)
  {
    forall tag ensures Count(net + more, tag) == Count(net, tag) + Count(more, tag) {
      CountConcat(net, more, tag);
    }
  }

  /** A shard that has not announced has no ready message in flight or counted. */
  lemma NotAnnounced(cfg: Config, s: System, i: ShardId, k: ShardId)
    requires InRounds(cfg, s) && i < |s.shards| && k < |s.shards| && i != k && !Declared(s.shards[i])
    ensures Count(s.net, ReadyTag(i, k)) == 0 && !CountsReady(s.shards[k], i)
  {
    KnownPair(s.shards, s.net, i, k);
    if Count(s.net, ReadyTag(i, k)) > 0 {
      CountedIsIn(s.net, ReadyTag(i, k));
      var pkt :| pkt in s.net && TagOf(pkt) == ReadyTag(i, k);
      KnownPacket(s.shards, s.sup.issued, s.net, pkt);
    }
  }

  lemma DeclarePairs(cfg: Config, s: System, k: ShardId)
    requires InRounds(cfg, s) && k < |s.shards| && s.shards[k].stage.Idle?
    ensures PairsOk(s.shards[k := DeclareReady(s.shards[k], k)], s.net + ReadyMsgs(s.shards[k], k, cfg.shards))
  {
    var after, more := s.shards[k := DeclareReady(s.shards[k], k)], ReadyMsgs(s.shards[k], k, cfg.shards);
    CountsAfterAppend(s.net, more);
    forall i: nat, j: nat | i < |after| && j < |after| ensures PairOk(after, s.net + more, i, j) {
      KnownPair(s.shards, s.net, i, j);
      ReadyMsgsCount(s.shards[k], k, cfg.shards, ReadyTag(i, j));
      ReadyMsgsCount(s.shards[k], k, cfg.shards, ShipTag(i, j));
      if i == k && j != k {
        NotAnnounced(cfg, s, k, j);
      }
    }
  }

  lemma DeclarePackets(cfg: Config, s: System, k: ShardId)
    requires InRounds(cfg, s) && k < |s.shards| && s.shards[k].stage.Idle?
    ensures PacketsOk(s.shards[k := DeclareReady(s.shards[k], k)], s.sup.issued,
                      s.net + ReadyMsgs(s.shards[k], k, cfg.shards))
  {
    var after, more := s.shards[k := DeclareReady(s.shards[k], k)], ReadyMsgs(s.shards[k], k, cfg.shards);
    ReadyMsgsAre(s.shards[k], k, cfg.shards);
    forall pkt | pkt in s.net + more ensures PacketOk(after, s.sup.issued, pkt) {
      if pkt in s.net {
        KnownPacket(s.shards, s.sup.issued, s.net, pkt);
      } else {
        KnownPair(s.shards, s.net, k, pkt.to);
      }
    }
  }

  lemma DeclareShardOk(cfg: Config, issued: seq<PartitionMap>, sh: Shard, k: ShardId)
    requires ShardOk(cfg, issued, sh, k) && sh.stage.Idle? && sh.partitionOn && k < cfg.shards
    ensures ShardOk(cfg, issued, DeclareReady(sh, k), k)
  {
  }

  lemma DeclareReadyRounds(cfg: Config, s: System, k: ShardId)
    requires InRounds(cfg, s) && Enabled(cfg, s, DeclareReadyStep(k))
    ensures InRounds(cfg, Do(cfg, s, DeclareReadyStep(k)))
  {
    var t, more := Do(cfg, s, DeclareReadyStep(k)), ReadyMsgs(s.shards[k], k, cfg.shards);
    DeclarePairs(cfg, s, k);
    DeclarePackets(cfg, s, k);
    ReadyMsgsAre(s.shards[k], k, cfg.shards);
    OrderedAppendOther(s.net, more);
    CountsAfterAppend(s.net, more);
    forall j: nat ensures Count(more, MapTag(j)) == 0 {
      ReadyMsgsCount(s.shards[k], k, cfg.shards, MapTag(j));
    }
    DeclareShardOk(cfg, s.sup.issued, s.shards[k], k) by {
      KnownShard(cfg, s.sup.issued, s.shards, k);
    }
    Assemble(cfg, s, t, k, t.shards[k]);
  }

  // Committing a block

  lemma BlockMsgsCount(cfg: Config, sh: Shard, k: ShardId, body: seq<Tx>, tag: Tag)
    requires tag != NoTag
    ensures Count(BlockMsgs(cfg, sh, k, body), tag) == 0
  {
    RelayMsgsCount(cfg, sh, k, body, cfg.shards, tag);
    CountSnoc(RelayMsgs(cfg, sh, k, body, cfg.shards), BlockInfo(k, sh.round), tag);
  }

  lemma CommitBlockPairs(cfg: Config, s: System, k: ShardId, sh: Shard, body: seq<Tx>)
    requires InRounds(cfg, s) && k < |s.shards| && s.shards[k].stage.BlockOpen?
    requires sh == CommitBlock(cfg, s.shards[k], k, body)
    ensures PairsOk(s.shards[k := sh], s.net + BlockMsgs(cfg, s.shards[k], k, body))
  {
    var after := s.shards[k := sh];
    forall i: nat, j: nat | i < |after| && j < |after| ensures PairOk(after, s.net, i, j) {
      KnownPair(s.shards, s.net, i, j);
    }
    forall tag: Tag | tag != NoTag ensures Count(BlockMsgs(cfg, s.shards[k], k, body), tag) == 0 {
      BlockMsgsCount(cfg, s.shards[k], k, body, tag);
    }
    PairsAfterAppend(after, s.net, BlockMsgs(cfg, s.shards[k], k, body));
  }

  lemma NewRelayOk(cfg: Config, s: System, k: ShardId, sh: Shard, pkt: Packet)
    requires InRounds(cfg, s) && k < |s.shards| && s.shards[k].stage.BlockOpen?
    requires sh.round == s.shards[k].round && sh.seqId == s.shards[k].seqId + 1
    requires pkt.Relay? && pkt.from == k && pkt.to < |s.shards| && pkt.to != k && pkt.seqNo == s.shards[k].seqId
    ensures PacketOk(s.shards[k := sh], s.sup.issued, pkt)
  {
    KnownPair(s.shards, s.net, k, pkt.to);
  }

  lemma CommitBlockPackets(cfg: Config, s: System, k: ShardId, sh: Shard, body: seq<Tx>)
    requires InRounds(cfg, s) && k < |s.shards| && s.shards[k].stage.BlockOpen?
    requires sh == CommitBlock(cfg, s.shards[k], k, body)
    ensures PacketsOk(s.shards[k := sh], s.sup.issued, s.net + BlockMsgs(cfg, s.shards[k], k, body))
  {
    var after := s.shards[k := sh];
    RelayMsgsAre(cfg, s.shards[k], k, body, cfg.shards);
    forall pkt | pkt in s.net + BlockMsgs(cfg, s.shards[k], k, body) ensures PacketOk(after, s.sup.issued, pkt) {
      if pkt in s.net {
        KnownPacket(s.shards, s.sup.issued, s.net, pkt);
      } else if pkt.Relay? {
        NewRelayOk(cfg, s, k, sh, pkt);
      } else {
        forall j: nat | j < |after| ensures pkt.epoch <= Shipped(after[j]) {
          KnownPair(s.shards, s.net, k, j);
        }
      }
    }
  }

  lemma CommitBlockOrdered(cfg: Config, s: System, k: ShardId, body: seq<Tx>)
    requires InRounds(cfg, s) && k < |s.shards|
    ensures LinksOrdered(s.net + BlockMsgs(cfg, s.shards[k], k, body))
  {
    var relays := RelayMsgs(cfg, s.shards[k], k, body, cfg.shards);
    RelayMsgsAre(cfg, s.shards[k], k, body, cfg.shards);
    RelayMsgsOrdered(cfg, s.shards[k], k, body, cfg.shards);
    OrderedAppend(relays, [BlockInfo(k, s.shards[k].round)]);
    forall x | x in s.net && x.Relay? && x.from == k ensures x.seqNo < s.shards[k].seqId {
      KnownPacket(s.shards, s.sup.issued, s.net, x);
    }
    OrderedAppend(s.net, BlockMsgs(cfg, s.shards[k], k, body));
  }

  lemma CommitBlockCommitted(cfg: Config, s: System, k: ShardId)
    requires RelaysCommitted(s.net, s.hist.committed) && k < |s.shards|
    ensures forall body :: RelaysCommitted(s.net + BlockMsgs(cfg, s.shards[k], k, body), s.hist.committed + {k})
  {
    forall body: seq<Tx>
      ensures RelaysCommitted(s.net + BlockMsgs(cfg, s.shards[k], k, body), s.hist.committed + {k})
    {
      RelayMsgsAre(cfg, s.shards[k], k, body, cfg.shards);
    }
  }

  lemma CommitBlockShardOk(cfg: Config, issued: seq<PartitionMap>, sh: Shard, k: ShardId, t: Shard)
    requires ShardOk(cfg, issued, sh, k) && sh.stage.BlockOpen?
    requires t == sh.(accounts := t.accounts, seqId := t.seqId, stage := Idle)
    ensures ShardOk(cfg, issued, t, k)
  {
  }

  lemma CommitBlockRounds(cfg: Config, s: System, k: ShardId)
    requires InRounds(cfg, s) && Enabled(cfg, s, CommitBlockStep(k))
    ensures InRounds(cfg, Do(cfg, s, CommitBlockStep(k)))
  {
    var body, t := s.shards[k].stage.body, Do(cfg, s, CommitBlockStep(k));
    var more := BlockMsgs(cfg, s.shards[k], k, body);
    CommitBlockPairs(cfg, s, k, t.shards[k], body);
    CommitBlockPackets(cfg, s, k, t.shards[k], body);
    CommitBlockOrdered(cfg, s, k, body);
    CommitBlockCommitted(cfg, s, k);
    CountsAfterAppend(s.net, more);
    forall j: nat ensures Count(more, MapTag(j)) == 0 {
      BlockMsgsCount(cfg, s.shards[k], k, body, MapTag(j));
    }
    CommitBlockShardOk(cfg, s.sup.issued, s.shards[k], k, t.shards[k]) by {
      KnownShard(cfg, s.sup.issued, s.shards, k);
    }
    Assemble(cfg, s, t, k, t.shards[k]);
  }

  // Passing the barrier

  /** What the barrier test tells about every other shard: it has announced this round; and if it was
      heard from, or has committed no block, nothing it relayed is missing. */
  lemma BarrierMeans(cfg: Config, s: System, k: ShardId, i: ShardId)
    requires InRounds(cfg, s) && k < |s.shards| && s.shards[k].stage.AwaitingReady?
    requires PartitionReady(s.shards[k], cfg.shards)
    requires i < |s.shards| && i != k
    ensures CountsReady(s.shards[k], i) && Declared(s.shards[i]) && s.shards[i].round == s.shards[k].round
    ensures i in s.shards[k].heard ==> s.shards[k].heard[i] + 1 == s.shards[i].seqId
    ensures Count(s.net, ReadyTag(i, k)) == 0
    ensures HeardOrSilent(s, i, k) ==> forall pkt :: pkt in s.net && pkt.Relay? && pkt.from == i ==> pkt.to != k
  {
    var sh := s.shards[k];
    KnownShard(cfg, s.sup.issued, s.shards, k);
    FullSet(sh.ready, cfg.shards);
    KnownPair(s.shards, s.net, i, k);
    forall pkt | pkt in s.net && pkt.Relay? && pkt.from == i && pkt.to == k ensures !HeardOrSilent(s, i, k) {
      KnownPacket(s.shards, s.sup.issued, s.net, pkt);
    }
  }

  lemma ShipPairs(cfg: Config, s: System, k: ShardId, parcels: seq<Parcel>, sh: Shard)
    requires InRounds(cfg, s) && k < |s.shards| && s.shards[k].stage.AwaitingReady?
    requires PartitionReady(s.shards[k], cfg.shards) && |parcels| == cfg.shards
    requires sh == s.shards[k].(queue := sh.queue, stage := Collecting)
    ensures PairsOk(s.shards[k := sh], s.net + Shipments(parcels, k, cfg.shards))
  {
    var after, more := s.shards[k := sh], Shipments(parcels, k, cfg.shards);
    CountsAfterAppend(s.net, more);
    forall i: nat, j: nat | i < |after| && j < |after| ensures PairOk(after, s.net + more, i, j) {
      KnownPair(s.shards, s.net, i, j);
      ShipmentsCount(parcels, k, cfg.shards, ReadyTag(i, j));
      ShipmentsCount(parcels, k, cfg.shards, ShipTag(i, j));
      if i != k {
        BarrierMeans(cfg, s, k, i);
      }
      if j != k {
        BarrierMeans(cfg, s, k, j);
      }
    }
  }

  lemma ShipPackets(cfg: Config, s: System, k: ShardId, parcels: seq<Parcel>, sh: Shard)
    requires InRounds(cfg, s) && k < |s.shards| && s.shards[k].stage.AwaitingReady?
    requires forall i: nat :: i < |s.shards| && i != k ==> HeardOrSilent(s, i, k)
    requires PartitionReady(s.shards[k], cfg.shards) && |parcels| == cfg.shards
    requires sh == s.shards[k].(queue := sh.queue, stage := Collecting)
    ensures PacketsOk(s.shards[k := sh], s.sup.issued, s.net + Shipments(parcels, k, cfg.shards))
  {
    var after := s.shards[k := sh];
    ShipmentsAre(parcels, k, cfg.shards);
    KnownShard(cfg, s.sup.issued, s.shards, k);
    forall pkt | pkt in s.net + Shipments(parcels, k, cfg.shards) ensures PacketOk(after, s.sup.issued, pkt) {
      if pkt in s.net {
        KnownPacket(s.shards, s.sup.issued, s.net, pkt);
        if (pkt.Relay? || pkt.Ready?) && pkt.to == k {
          assert HeardOrSilent(s, pkt.from, k);
          BarrierMeans(cfg, s, k, pkt.from);
          CountIn(s.net, pkt);
        }
      }
    }
  }

  lemma ShipShardOk(cfg: Config, issued: seq<PartitionMap>, sh: Shard, k: ShardId, t: Shard)
    requires ShardOk(cfg, issued, sh, k) && sh.stage.AwaitingReady?
    requires t == sh.(queue := t.queue, stage := Collecting)
    ensures ShardOk(cfg, issued, t, k)
  {
  }

  lemma ShipRounds(cfg: Config, s: System, k: ShardId)
    requires InRounds(cfg, s) && Enabled(cfg, s, ShipStep(k))
    ensures InRounds(cfg, Do(cfg, s, ShipStep(k)))
  {
    var parcels, t := Parcels(cfg, s.shards[k], k), Do(cfg, s, ShipStep(k));
    var more := Shipments(parcels, k, cfg.shards);
    ShipPairs(cfg, s, k, parcels, t.shards[k]);
    ShipPackets(cfg, s, k, parcels, t.shards[k]);
    ShipmentsAre(parcels, k, cfg.shards);
    OrderedAppendOther(s.net, more);
    CountsAfterAppend(s.net, more);
    forall j: nat ensures Count(more, MapTag(j)) == 0 {
      ShipmentsCount(parcels, k, cfg.shards, MapTag(j));
    }
    ShipShardOk(cfg, s.sup.issued, s.shards[k], k, t.shards[k]) by {
      KnownShard(cfg, s.sup.issued, s.shards, k);
    }
    Assemble(cfg, s, t, k, t.shards[k]);
  }

  // Committing a partition

  /** When a shard has collected everything, every other shard has shipped this round. */
  lemma CollectedMeans(cfg: Config, s: System, k: ShardId, i: ShardId)
    requires InRounds(cfg, s) && k < |s.shards| && s.shards[k].collectOver
    requires i < |s.shards| && i != k
    ensures i in s.shards[k].received && Shipped(s.shards[i]) == s.shards[k].round + 1
    ensures Count(s.net, ShipTag(i, k)) == 0
  {
    AllReceived(cfg, s, k, i);
    KnownPair(s.shards, s.net, i, k);
  }

  lemma FinishPairs(cfg: Config, s: System, k: ShardId, sh: Shard)
    requires InRounds(cfg, s) && k < |s.shards| && s.shards[k].stage.PartitionOpen?
    requires sh == CommitPartition(cfg, s.shards[k], k, s.shards[k].stage.atm)
    ensures PairsOk(s.shards[k := sh], s.net)
  {
    var after := s.shards[k := sh];
    KnownShard(cfg, s.sup.issued, s.shards, k);
    forall i: nat, j: nat | i < |after| && j < |after| ensures PairOk(after, s.net, i, j) {
      KnownPair(s.shards, s.net, i, j);
      if i != k {
        CollectedMeans(cfg, s, k, i);
      }
      if j != k {
        CollectedMeans(cfg, s, k, j);
      }
    }
  }

  lemma FinishPackets(cfg: Config, s: System, k: ShardId, sh: Shard)
    requires InRounds(cfg, s) && k < |s.shards| && s.shards[k].stage.PartitionOpen?
    requires sh == CommitPartition(cfg, s.shards[k], k, s.shards[k].stage.atm)
    ensures PacketsOk(s.shards[k := sh], s.sup.issued, s.net)
  {
    var after := s.shards[k := sh];
    KnownShard(cfg, s.sup.issued, s.shards, k);
    forall pkt | pkt in s.net ensures PacketOk(after, s.sup.issued, pkt) {
      KnownPacket(s.shards, s.sup.issued, s.net, pkt);
      if (pkt.Relay? || pkt.Ready?) && pkt.from == k {
        CollectedMeans(cfg, s, k, pkt.to);
      }
    }
  }

  lemma FinishShardOk(cfg: Config, issued: seq<PartitionMap>, sh: Shard, k: ShardId, t: Shard)
    requires ShardOk(cfg, issued, sh, k) && sh.stage.PartitionOpen?
    requires t.maps == if |sh.maps| != sh.round + 1 then sh.maps + [sh.stage.atm.pmap] else sh.maps
    requires t.round == sh.round + 1 && t.pmap == Overlay(issued, t.round)
    requires !t.partitionOn && t.ready == {} && t.received == map[] && !t.collectOver && t.stage.Idle?
    requires t.heard == sh.heard
    ensures ShardOk(cfg, issued, t, k)
  {
  }

  lemma FinishedOk(cfg: Config, issued: seq<PartitionMap>, sh: Shard, k: ShardId)
    requires ShardOk(cfg, issued, sh, k) && sh.stage.PartitionOpen?
    ensures var t := CommitPartition(cfg, sh, k, sh.stage.atm);
      ShardOk(cfg, issued, t, k) && Shipped(t) == Shipped(sh) && Got(t) == Got(sh)
  {
    FinishedCounts(cfg, issued, sh, k);
    FinishShardOk(cfg, issued, sh, k, CommitPartition(cfg, sh, k, sh.stage.atm));
  }

  lemma FinishedCounts(cfg: Config, issued: seq<PartitionMap>, sh: Shard, k: ShardId)
    requires ShardOk(cfg, issued, sh, k) && sh.stage.PartitionOpen?
    ensures var t := CommitPartition(cfg, sh, k, sh.stage.atm);
      Shipped(t) == Shipped(sh) && Got(t) == Got(sh) && t.round == sh.round + 1 && t.pmap == Overlay(issued, t.round)
  {
    assert Overlay(issued, sh.round + 1) == Overlay(issued, sh.round) + issued[sh.round];
  }

  lemma CommitPartitionRounds(cfg: Config, s: System, k: ShardId)
    requires InRounds(cfg, s) && Enabled(cfg, s, CommitPartitionStep(k))
    ensures InRounds(cfg, Do(cfg, s, CommitPartitionStep(k)))
  {
    var t := Do(cfg, s, CommitPartitionStep(k));
    KnownShard(cfg, s.sup.issued, s.shards, k);
    FinishPairs(cfg, s, k, t.shards[k]);
    FinishPackets(cfg, s, k, t.shards[k]);
    FinishedOk(cfg, s.sup.issued, s.shards[k], k);
    Assemble(cfg, s, t, k, t.shards[k]);
  }

  lemma StepRounds(cfg: Config, s: System, step: Step)
    requires InRounds(cfg, s) && Enabled(cfg, s, step)
    ensures InRounds(cfg, Do(cfg, s, step))
  {
    match step
    case InjectStep(k, txs) => InjectRounds(cfg, s, k, txs);
    case IssueMapStep(m) => IssueMapRounds(cfg, s, m);
    case DeliverStep(p) => DeliverRounds(cfg, s, p);
    case OpenBlockStep(k, size) => OpenBlockRounds(cfg, s, k, size);
    case CommitBlockStep(k) => CommitBlockRounds(cfg, s, k);
    case DeclareReadyStep(k) => DeclareReadyRounds(cfg, s, k);
    case ShipStep(k) => ShipRounds(cfg, s, k);
    case OpenPartitionStep(k, order) => OpenPartitionRounds(cfg, s, k, order);
    case CommitPartitionStep(k) => CommitPartitionRounds(cfg, s, k);
  }
}
