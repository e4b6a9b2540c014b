/**
 The round structure every run keeps: how far each shard may be ahead of another, and
 which messages can still be in flight in which phase.
 */
module Rounds {
  import opened Basics
  import opened Ledger
  import opened Shards
  import opened Protocol

  /** The first `r` partition maps laid over each other. */
  function Overlay(ms: seq<PartitionMap>, r: nat): PartitionMap
    requires r <= |ms|
  {
    if r == 0 then map[] else Overlay(ms, r - 1) + ms[r - 1]
  }

  lemma {:induction false} OverlayExtends(ms: seq<PartitionMap>, m: PartitionMap, r: nat)
    requires r <= |ms|
    ensures Overlay(ms + [m], r) == Overlay(ms, r)
  {
    if r > 0 {
      OverlayExtends(ms, m, r - 1);
    }
  }

  ghost predicate InRange(cfg: Config, m: PartitionMap) {
    forall a :: a in m ==> m[a] < cfg.shards
  }

  lemma {:induction false} OverlayInRange(cfg: Config, ms: seq<PartitionMap>, r: nat)
    requires r <= |ms| && forall m :: m in ms ==> InRange(cfg, m)
    ensures InRange(cfg, Overlay(ms, r))
  {
    if r > 0 {
      OverlayInRange(cfg, ms, r - 1);
      assert InRange(cfg, ms[r - 1]);
    }
  }

  /** The shard has announced that it is ready for the migration round it is in. */
  predicate Declared(s: Shard) {
    s.stage.AwaitingReady? || s.stage.Collecting? || s.stage.PartitionOpen?
  }

  /** Number of migration rounds in which the shard has shipped its accounts. */
  function Shipped(s: Shard): nat {
    s.round + if s.stage.Collecting? || s.stage.PartitionOpen? then 1 else 0
  }

  /** A map arrived after the partition request was opened and before it was committed. Committing appends
      the old map once more and turns the partition flag off: the new map is never acted on. */
  predicate Stalled(s: Shard) {
    |s.maps| == s.round + 2 && !s.partitionOn
  }

  /** How many maps the shard has received. */
  function Got(s: Shard): nat {
    if Stalled(s) then |s.maps| - 1 else |s.maps|
  }

  /** A round is due or under way. */
  predicate RoundDue(s: Shard) {
    |s.maps| == s.round + 1 || (|s.maps| == s.round + 2 && s.stage.PartitionOpen?)
  }

  ghost predicate ShardOk(cfg: Config, issued: seq<PartitionMap>, s: Shard, k: ShardId) {
    && s.round <= |s.maps| <= s.round + 2
    && Got(s) <= |issued| && s.maps[..Got(s)] == issued[..Got(s)]
    && (s.partitionOn <==> RoundDue(s))
    && (Declared(s) ==> s.partitionOn)
    && s.pmap == Overlay(issued, s.round)
    && (forall i :: i in s.ready ==> i < cfg.shards)
    && (forall i :: i in s.heard ==> i < cfg.shards && i != k)
    && (forall i :: i in s.received ==> i < cfg.shards && i != k)
    && (s.collectOver ==> |s.received| == cfg.shards - 1)
    && (cfg.shards > 1 && |s.received| == cfg.shards - 1 ==> s.collectOver)
    && (s.stage.AwaitingReady? ==> k in s.ready)
    && (s.stage.PartitionOpen? ==>
          s.collectOver && s.stage.atm.pmap == issued[s.round] && s.stage.atm.atid == s.round + 1)
  }

  ghost predicate SupervisorOk(cfg: Config, shards: seq<Shard>, sup: Supervisor) {
    && sup.modifiedMap == Overlay(sup.issued, |sup.issued|)
    && (forall m :: m in sup.issued ==> InRange(cfg, m))
    && sup.curEpoch <= |sup.issued| <= sup.curEpoch + 1
    && forall k :: 0 <= k < |shards| ==> sup.curEpoch <= Shipped(shards[k])
  }

  ghost predicate PacketOk(shards: seq<Shard>, issued: seq<PartitionMap>, pkt: Packet) {
    match pkt
    case Inject(k, _) => k < |shards| && Shipped(shards[k]) == Got(shards[k])
    case MapMsg(k, m) =>
      k < |shards| && Got(shards[k]) + 1 == |issued| && m == issued[Got(shards[k])]
    case Relay(i, k, _, q) =>
      i < |shards| && k < |shards| && i != k
      && Shipped(shards[k]) == shards[i].round
      && q < shards[i].seqId
      && (i in shards[k].heard ==> shards[k].heard[i] < q)
    case Ready(i, k, q) =>
      i < |shards| && k < |shards| && i != k
      && Declared(shards[i]) && q == shards[i].seqId && Shipped(shards[k]) <= shards[i].round
    case Shipment(i, k, _) => i < |shards| && k < |shards| && i != k
    case BlockInfo(i, e) => forall k :: 0 <= k < |shards| ==> e <= Shipped(shards[k])
  }

  ghost predicate PacketsOk(shards: seq<Shard>, issued: seq<PartitionMap>, net: seq<Packet>) {
    forall pkt :: pkt in net ==> PacketOk(shards, issued, pkt)
  }

  lemma KnownPacket(shards: seq<Shard>, issued: seq<PartitionMap>, net: seq<Packet>, pkt: Packet)
    requires PacketsOk(shards, issued, net) && pkt in net
    ensures PacketOk(shards, issued, pkt)
  {
  }

  // ---------- Counting messages ----------

  datatype Tag =
    | MapTag(to: ShardId)
    | ReadyTag(from: ShardId, to: ShardId)
    | ShipTag(from: ShardId, to: ShardId)
    | NoTag

  function TagOf(p: Packet): Tag {
    match p
    case MapMsg(k, _) => MapTag(k)
    case Ready(i, k, _) => ReadyTag(i, k)
    case Shipment(i, k, _) => ShipTag(i, k)
    case _ => NoTag
  }

  function Count(net: seq<Packet>, tag: Tag): nat {
    if net == [] then 0
    else Count(net[..|net| - 1], tag) + if TagOf(net[|net| - 1]) == tag then 1 else 0
  }

  lemma {:induction false} CountConcat(x: seq<Packet>, y: seq<Packet>, tag: Tag)
    ensures Count(x + y, tag) == Count(x, tag) + Count(y, tag)
  {
    if y == [] {
      assert x + y == x;
    } else {
      assert (x + y)[..|x + y| - 1] == x + y[..|y| - 1];
      CountConcat(x, y[..|y| - 1], tag);
    }
  }

  lemma CountRemove(net: seq<Packet>, p: nat, tag: Tag)
    requires p < |net|
    ensures Count(net, tag) == Count(RemoveAt(net, p), tag) + if TagOf(net[p]) == tag then 1 else 0
  {
    var before, here, after := net[..p], [net[p]], net[p + 1..];
    assert net == before + here + after;
    CountConcat(before + here, after, tag);
    CountConcat(before, here, tag);
    CountConcat(before, after, tag);
    assert here[..|here| - 1] == [];
  }

  lemma CountIn(net: seq<Packet>, pkt: Packet)
    requires pkt in net
    ensures Count(net, TagOf(pkt)) >= 1
  {
    var p :| 0 <= p < |net| && net[p] == pkt;
    CountRemove(net, p, TagOf(pkt));
  }

  function One(b: bool): nat {
    if b then 1 else 0
  }

  ghost predicate MapsCounted(shards: seq<Shard>, issued: seq<PartitionMap>, net: seq<Packet>) {
    forall k :: 0 <= k < |shards| ==> Count(net, MapTag(k)) + Got(shards[k]) == |issued|
  }

  /** A ready message counts at its receiver until the receiver ships. */
  predicate CountsReady(s: Shard, i: ShardId) {
    i in s.ready && Shipped(s) == s.round
  }

  /** No shard ships a round before every shard has announced it, and none finishes a round
      before every shard has shipped it. */
  predicate PhaseOk(x: Shard, y: Shard) {
    x.round <= Shipped(y) <= x.round + 1 && (Shipped(y) == x.round + 1 ==> Declared(x))
  }

  /** A ready message is in flight or counted at most once, and a counted one still tells the
      sender's current sequence number. */
  predicate ReadyOk(x: Shard, y: Shard, i: ShardId, inFlight: nat) {
    inFlight + One(CountsReady(y, i)) <= 1
    && (CountsReady(y, i) ==>
          Declared(x) && x.round == y.round && i in y.readySeq && y.readySeq[i] == x.seqId)
  }

  /** A shipment is in flight or received exactly from shipping until its receiver finishes. */
  predicate ShipmentOk(x: Shard, y: Shard, i: ShardId, inFlight: nat) {
    inFlight + One(i in y.received) == One(Shipped(x) == y.round + 1)
  }

  /** What holds between shard `i` and its peer `k`. */
  ghost predicate PairOk(shards: seq<Shard>, net: seq<Packet>, i: ShardId, k: ShardId)
    requires i < |shards| && k < |shards|
  {
    var x, y := shards[i], shards[k];
    PhaseOk(x, y)
    && (i != k ==>
          ReadyOk(x, y, i, Count(net, ReadyTag(i, k)))
          && ShipmentOk(x, y, i, Count(net, ShipTag(i, k)))
          && (i in y.heard ==> y.heard[i] < x.seqId))
  }

  ghost predicate PairsOk(shards: seq<Shard>, net: seq<Packet>) {
    forall i: nat, k: nat :: i < |shards| && k < |shards| ==> PairOk(shards, net, i, k)
  }

  predicate InOrder(x: Packet, y: Packet) {
    (x.Relay? && y.Relay? ==> x.seqNo < y.seqNo) && !(x.MapMsg? && y.Inject?)
  }

  /** On one link, relays are in flight by increasing sequence number, and no injection is
      behind a partition map. */
  ghost predicate LinksOrdered(net: seq<Packet>) {
    forall p, q :: 0 <= p < q < |net| && LinkOf(net[p]) == LinkOf(net[q]) ==> InOrder(net[p], net[q])
  }

  ghost predicate ShardAt(cfg: Config, issued: seq<PartitionMap>, shards: seq<Shard>, k: ShardId)
    requires k < |shards|
  {
    ShardOk(cfg, issued, shards[k], k)
  }

  ghost predicate ShardsOk(cfg: Config, issued: seq<PartitionMap>, shards: seq<Shard>) {
    |shards| == cfg.shards && forall k: nat :: k < |shards| ==> ShardAt(cfg, issued, shards, k)
  }

  /** Relays come only from shards that have committed a block. */
  ghost predicate RelaysCommitted(net: seq<Packet>, committed: set<ShardId>) {
    forall pkt :: pkt in net && pkt.Relay? ==> pkt.from in committed
  }

  ghost predicate InRounds(cfg: Config, s: System) {
    && cfg.Valid()
    && ShardsOk(cfg, s.sup.issued, s.shards)
    && SupervisorOk(cfg, s.shards, s.sup)
    && PacketsOk(s.shards, s.sup.issued, s.net)
    && MapsCounted(s.shards, s.sup.issued, s.net)
    && PairsOk(s.shards, s.net)
    && LinksOrdered(s.net)
    && RelaysCommitted(s.net, s.hist.committed)
  }

  lemma KnownShard(cfg: Config, issued: seq<PartitionMap>, shards: seq<Shard>, k: ShardId)
    requires ShardsOk(cfg, issued, shards) && k < |shards|
    ensures ShardOk(cfg, issued, shards[k], k)
  {
    assert ShardAt(cfg, issued, shards, k);
  }

  lemma ShardsReplaced(cfg: Config, issued: seq<PartitionMap>, shards: seq<Shard>, k: ShardId, t: Shard)
    requires ShardsOk(cfg, issued, shards) && k < |shards| && ShardOk(cfg, issued, t, k)
    ensures ShardsOk(cfg, issued, shards[k := t])
  {
    var after := shards[k := t];
    forall j: nat | j < |after| ensures ShardAt(cfg, issued, after, j) {
      assert ShardAt(cfg, issued, shards, j);
    }
  }

  lemma KnownPair(shards: seq<Shard>, net: seq<Packet>, i: ShardId, k: ShardId)
    requires PairsOk(shards, net) && i < |shards| && k < |shards|
    ensures PairOk(shards, net, i, k)
  {
  }

  lemma InitialRounds(cfg: Config, s: System)
    requires cfg.Valid() && Initial(cfg, s)
    ensures InRounds(cfg, s)
  {
  }

  // ---------- The messages each step sends ----------

  lemma CountSnoc(net: seq<Packet>, pkt: Packet, tag: Tag)
    ensures Count(net + [pkt], tag) == Count(net, tag) + One(TagOf(pkt) == tag)
  {
    assert (net + [pkt])[..|net + [pkt]| - 1] == net;
  }

  lemma {:induction false} RelayMsgsAre(cfg: Config, s: Shard, id: ShardId, body: seq<Tx>, n: nat)
    ensures forall pkt :: pkt in RelayMsgs(cfg, s, id, body, n) ==>
      pkt.Relay? && pkt.from == id && pkt.to < n && pkt.to != id && pkt.seqNo == s.seqId
      && pkt.txs == RelayTxs(cfg, s.pmap, body, pkt.to)
  {
    if n > 0 {
      RelayMsgsAre(cfg, s, id, body, n - 1);
    }
  }

  /** At most one relay message to each receiver, so the batch is trivially ordered. */
  lemma {:induction false} RelayMsgsOrdered(cfg: Config, s: Shard, id: ShardId, body: seq<Tx>, n: nat)
    ensures LinksOrdered(RelayMsgs(cfg, s, id, body, n))
  {
    if n > 0 {
      RelayMsgsOrdered(cfg, s, id, body, n - 1);
      RelayMsgsAre(cfg, s, id, body, n - 1);
      var prev := RelayMsgs(cfg, s, id, body, n - 1);
      forall p | 0 <= p < |prev| ensures prev[p].Relay? && prev[p].to < n - 1 {
        assert prev[p] in prev;
      }
    }
  }

  lemma {:induction false} RelayMsgsCount(cfg: Config, s: Shard, id: ShardId, body: seq<Tx>, n: nat, tag: Tag)
    requires tag != NoTag
    ensures Count(RelayMsgs(cfg, s, id, body, n), tag) == 0
  {
    if n > 0 {
      RelayMsgsCount(cfg, s, id, body, n - 1, tag);
      var prev := RelayMsgs(cfg, s, id, body, n - 1);
      assert prev + [] == prev;
      CountSnoc(prev, Relay(id, n - 1, RelayTxs(cfg, s.pmap, body, n - 1), s.seqId), tag);
    }
  }

  lemma {:induction false} ReadyMsgsAre(s: Shard, id: ShardId, n: nat)
    ensures forall pkt :: pkt in ReadyMsgs(s, id, n) ==>
      pkt.Ready? && pkt.from == id && pkt.to < n && pkt.to != id && pkt.seqNo == s.seqId
  {
    if n > 0 {
      ReadyMsgsAre(s, id, n - 1);
    }
  }

  lemma {:induction false} ReadyMsgsCount(s: Shard, id: ShardId, n: nat, tag: Tag)
    requires tag != NoTag
    ensures Count(ReadyMsgs(s, id, n), tag) == One(tag.ReadyTag? && tag.from == id && tag.to < n && tag.to != id)
  {
    if n > 0 {
      ReadyMsgsCount(s, id, n - 1, tag);
      var prev := ReadyMsgs(s, id, n - 1);
      assert prev + [] == prev;
      CountSnoc(prev, Ready(id, n - 1, s.seqId), tag);
    }
  }

  lemma {:induction false} ShipmentsAre(parcels: seq<Parcel>, id: ShardId, n: nat)
    requires n <= |parcels|
    ensures forall pkt :: pkt in Shipments(parcels, id, n) ==>
      pkt.Shipment? && pkt.from == id && pkt.to < n && pkt.to != id && pkt.parcel == parcels[pkt.to]
  {
    if n > 0 {
      ShipmentsAre(parcels, id, n - 1);
    }
  }

  lemma {:induction false} ShipmentsCount(parcels: seq<Parcel>, id: ShardId, n: nat, tag: Tag)
    requires n <= |parcels| && tag != NoTag
    ensures Count(Shipments(parcels, id, n), tag) == One(tag.ShipTag? && tag.from == id && tag.to < n && tag.to != id)
  {
    if n > 0 {
      ShipmentsCount(parcels, id, n - 1, tag);
      var prev := Shipments(parcels, id, n - 1);
      assert prev + [] == prev;
      CountSnoc(prev, Shipment(id, n - 1, parcels[n - 1]), tag);
    }
  }

  lemma {:induction false} MapMsgsAre(m: PartitionMap, n: nat)
    ensures forall pkt :: pkt in MapMsgs(m, n) ==> pkt.MapMsg? && pkt.to < n && pkt.pmap == m
  {
    if n > 0 {
      MapMsgsAre(m, n - 1);
    }
  }

  lemma {:induction false} MapMsgsCount(m: PartitionMap, n: nat, tag: Tag)
    requires tag != NoTag
    ensures Count(MapMsgs(m, n), tag) == One(tag.MapTag? && tag.to < n)
  {
    if n > 0 {
      MapMsgsCount(m, n - 1, tag);
      CountSnoc(MapMsgs(m, n - 1), MapMsg(n - 1, m), tag);
    }
  }
}
