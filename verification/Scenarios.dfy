/**
 Reachable states of a system of two shards: a relay behind the barrier, an announcement that is erased, and
 a map that arrives too late to be acted on.
 */
module Scenarios {
  import opened Basics
  import opened Ledger
  import opened Execution
  import opened Shards
  import opened Protocol
  import opened Rounds
  import opened Barrier
  import opened Stalls

  ghost predicate Looks(s: System, a: Shard, b: Shard, net: seq<Packet>, sup: Supervisor) {
    s.shards == [a, b] && s.net == net && s.sup == sup
  }

  lemma RunGrows(cfg: Config, run: seq<System>, t: System)
    requires IsRun(cfg, run) && Follows(cfg, run[|run| - 1], t)
    ensures IsRun(cfg, run + [t])
  {
    var longer := run + [t];
    forall i: nat | i + 1 < |longer| ensures NextFollows(cfg, longer, i) {
      if i + 1 < |run| {
        assert NextFollows(cfg, run, i);
      }
    }
  }

  lemma Take(cfg: Config, s: System, step: Step) returns (t: System)
    requires Reachable(cfg, s) && Enabled(cfg, s, step)
    ensures Reachable(cfg, t) && t == Do(cfg, s, step)
  {
    t := Do(cfg, s, step);
    var run :| IsRun(cfg, run) && run[|run| - 1] == s;
    RunGrows(cfg, run, t);
    assert (run + [t])[|run + [t]| - 1] == t;
  }

  lemma Without(before: seq<Packet>, pkt: Packet, after: seq<Packet>)
    ensures RemoveAt(before + [pkt] + after, |before|) == before + after
    ensures (before + [pkt] + after)[|before|] == pkt
    ensures forall q :: 0 <= q < |before| ==> (before + [pkt] + after)[q] == before[q]
  {
    var all := before + [pkt] + after;
    assert all[..|before|] == before && all[|before| + 1..] == after;
  }

  /** A message that is next on its link reaches its receiver. */
  lemma Arrive(cfg: Config, s: System, a: Shard, b: Shard, before: seq<Packet>, pkt: Packet, after: seq<Packet>,
               sup: Supervisor) returns (t: System)
    requires Reachable(cfg, s) && Looks(s, a, b, before + [pkt] + after, sup)
    requires (forall q :: 0 <= q < |before| ==> LinkOf(before[q]) != LinkOf(pkt)) && !pkt.BlockInfo? && pkt.to < 2
    requires pkt.MapMsg? ==> !(if pkt.to == 0 then a else b).stage.Collecting?
    ensures Reachable(cfg, t) && t.hist == s.hist
    ensures Looks(t, if pkt.to == 0 then Received(cfg, a, pkt) else a,
                  if pkt.to == 1 then Received(cfg, b, pkt) else b, before + after, sup)
  {
    Without(before, pkt, after);
    t := Take(cfg, s, DeliverStep(|before|));
  }

  lemma Start(cfg: Config) returns (s: System)
    requires cfg.Valid() && cfg.shards == 2
    ensures Reachable(cfg, s) && Looks(s, FRESH_SHARD, FRESH_SHARD, [], Supervisor(map[], [], 0))
    ensures s.hist.committed == {}
  {
    s := System([FRESH_SHARD, FRESH_SHARD], [], Supervisor(map[], [], 0), History([], [], [], map[], false, {}));
    assert IsRun(cfg, [s]) && [s][|[s]| - 1] == s;
  }

  // ---------- A relay behind the barrier ----------

  /** A transfer from an account of shard 1 to an account of shard 0. */
  predicate Crosses(cfg: Config, tx: Tx) {
    !tx.relayed && !tx.hasBroker && cfg.defaultHome(tx.sender) == 1 && cfg.defaultHome(tx.recipient) == 0
  }

  const UNMAPPED := Supervisor(map[], [], 0)

  function MovedOnce(m: PartitionMap): Supervisor {
    Supervisor(map[] + m, [m], 0)
  }

  function HasMap(sh: Shard, m: PartitionMap): Shard {
    sh.(maps := [m], partitionOn := true)
  }

  lemma OneRelay(cfg: Config, sh: Shard, tx: Tx)
    requires cfg.Valid() && cfg.shards == 2 && Crosses(cfg, tx) && sh.pmap == map[]
    ensures BlockMsgs(cfg, sh, 1, [tx]) == [Relay(1, 0, [Mark(tx)], sh.seqId), BlockInfo(1, sh.round)]
  {
    assert [tx][..0] == [];
    assert RelayTxs(cfg, sh.pmap, [tx], 0) == [Mark(tx)];
    assert RelayMsgs(cfg, sh, 1, [tx], 1) == [Relay(1, 0, [Mark(tx)], sh.seqId)];
    assert RelayMsgs(cfg, sh, 1, [tx], 2) == [Relay(1, 0, [Mark(tx)], sh.seqId)];
  }

  lemma Opened(cfg: Config, s: System, tx: Tx) returns (t: System)
    requires Reachable(cfg, s) && Looks(s, FRESH_SHARD, FRESH_SHARD.(queue := [tx]), [], UNMAPPED)
    ensures Reachable(cfg, t) && t.hist == s.hist
    ensures Looks(t, FRESH_SHARD, FRESH_SHARD.(stage := BlockOpen([tx])), [], UNMAPPED)
  {
    t := Take(cfg, s, OpenBlockStep(1, 1));
    assert [tx][..1] == [tx] && [tx][1..] == [];
  }

  lemma Committed(cfg: Config, s: System, tx: Tx) returns (t: System, acc: Accounts)
    requires cfg.Valid() && cfg.shards == 2 && Crosses(cfg, tx) && Reachable(cfg, s)
    requires Looks(s, FRESH_SHARD, FRESH_SHARD.(stage := BlockOpen([tx])), [], UNMAPPED)
    ensures Reachable(cfg, t) && t.hist.committed == s.hist.committed + {1}
    ensures Looks(t, FRESH_SHARD, FRESH_SHARD.(accounts := acc, seqId := 2),
                  [Relay(1, 0, [Mark(tx)], 1), BlockInfo(1, 0)], UNMAPPED)
  {
    OneRelay(cfg, s.shards[1], tx);
    t := Take(cfg, s, CommitBlockStep(1));
    acc := t.shards[1].accounts;
  }

  /** Shard 1 executes the transfer and relays it. */
  lemma Relayed(cfg: Config, tx: Tx) returns (s: System, acc: Accounts)
    requires cfg.Valid() && cfg.shards == 2 && Crosses(cfg, tx)
    ensures Reachable(cfg, s) && s.hist.committed == {1}
    ensures Looks(s, FRESH_SHARD, FRESH_SHARD.(accounts := acc, seqId := 2),
                  [Relay(1, 0, [Mark(tx)], 1), BlockInfo(1, 0)], UNMAPPED)
  {
    s := Start(cfg);
    s := Take(cfg, s, InjectStep(1, [tx]));
    assert [] + [Inject(1, [tx])] + [] == [Inject(1, [tx])];
    s := Arrive(cfg, s, FRESH_SHARD, FRESH_SHARD, [], Inject(1, [tx]), [], UNMAPPED);
    assert FRESH_SHARD.queue + [tx] == [tx];
    s := Opened(cfg, s, tx);
    s, acc := Committed(cfg, s, tx);
  }

  ghost predicate FromShards(net: seq<Packet>) {
    forall q :: 0 <= q < |net| ==> !LinkOf(net[q]).SupervisorLink?
  }

  lemma TwoMapMsgs(m: PartitionMap)
    ensures MapMsgs(m, 2) == [MapMsg(0, m), MapMsg(1, m)]
  {
    assert MapMsgs(m, 1) == [MapMsg(0, m)];
  }

  /** Both shards get the first map, behind messages that come from shards. */
  lemma Mapped(cfg: Config, s: System, b: Shard, net: seq<Packet>, m: PartitionMap) returns (t: System)
    requires cfg.Valid() && cfg.shards == 2 && Reachable(cfg, s) && Looks(s, FRESH_SHARD, b, net, UNMAPPED)
    requires b.maps == [] && !b.stage.Collecting? && forall a :: a in m ==> m[a] < 2
    requires FromShards(net)
    ensures Reachable(cfg, t) && t.hist == s.hist
    ensures Looks(t, HasMap(FRESH_SHARD, m), HasMap(b, m), net, MovedOnce(m))
  {
    t := Take(cfg, s, IssueMapStep(m));
    TwoMapMsgs(m);
    assert t.net == net + [MapMsg(0, m)] + [MapMsg(1, m)];
    t := FirstMapped(cfg, t, b, net, m);
    t := SecondMapped(cfg, t, b, net, m);
  }

  lemma FirstMapped(cfg: Config, s: System, b: Shard, net: seq<Packet>, m: PartitionMap) returns (t: System)
    requires Reachable(cfg, s) && FromShards(net)
    requires Looks(s, FRESH_SHARD, b, net + [MapMsg(0, m)] + [MapMsg(1, m)], MovedOnce(m))
    ensures Reachable(cfg, t) && t.hist == s.hist
    ensures Looks(t, HasMap(FRESH_SHARD, m), b, net + [MapMsg(1, m)], MovedOnce(m))
  {
    t := Arrive(cfg, s, FRESH_SHARD, b, net, MapMsg(0, m), [MapMsg(1, m)], MovedOnce(m));
    assert [] + [m] == [m];
  }

  lemma SecondMapped(cfg: Config, s: System, b: Shard, net: seq<Packet>, m: PartitionMap) returns (t: System)
    requires Reachable(cfg, s) && FromShards(net) && b.maps == [] && !b.stage.Collecting?
    requires Looks(s, HasMap(FRESH_SHARD, m), b, net + [MapMsg(1, m)], MovedOnce(m))
    ensures Reachable(cfg, t) && t.hist == s.hist
    ensures Looks(t, HasMap(FRESH_SHARD, m), HasMap(b, m), net, MovedOnce(m))
  {
    assert net + [MapMsg(1, m)] + [] == net + [MapMsg(1, m)];
    t := Arrive(cfg, s, HasMap(FRESH_SHARD, m), b, net, MapMsg(1, m), [], MovedOnce(m));
    assert [] + [m] == [m] && net + [] == net;
  }

  lemma OneReady(sh: Shard)
    ensures ReadyMsgs(sh, 0, 2) == [Ready(0, 1, sh.seqId)] && ReadyMsgs(sh, 1, 2) == [Ready(1, 0, sh.seqId)]
  {
    assert ReadyMsgs(sh, 0, 0) == [] && ReadyMsgs(sh, 1, 0) == [];
    assert ReadyMsgs(sh, 0, 1) == [] + [] && ReadyMsgs(sh, 1, 1) == [] + [Ready(1, 0, sh.seqId)];
    assert ReadyMsgs(sh, 0, 2) == [] + [Ready(0, 1, sh.seqId)];
    assert ReadyMsgs(sh, 1, 2) == [Ready(1, 0, sh.seqId)] + [];
  }

  /** Both shards announce. */
  lemma Announced(cfg: Config, s: System, a: Shard, b: Shard, net: seq<Packet>, sup: Supervisor) returns (t: System)
    requires cfg.Valid() && cfg.shards == 2 && Reachable(cfg, s) && Looks(s, a, b, net, sup)
    requires a.partitionOn && b.partitionOn && a.stage.Idle? && b.stage.Idle?
    ensures Reachable(cfg, t) && t.hist == s.hist
    ensures Looks(t, DeclareReady(a, 0), DeclareReady(b, 1), net + [Ready(0, 1, a.seqId), Ready(1, 0, b.seqId)], sup)
  {
    OneReady(a);
    OneReady(b);
    t := Take(cfg, s, DeclareReadyStep(0));
    t := Take(cfg, t, DeclareReadyStep(1));
    assert net + [Ready(0, 1, a.seqId)] + [Ready(1, 0, b.seqId)] == net + [Ready(0, 1, a.seqId), Ready(1, 0, b.seqId)];
  }

  /** Shard 0 has everything the barrier asks for, and the relay is still on its way. */
  lemma BehindBarrier(cfg: Config, tx: Tx, m: PartitionMap) returns (s: System)
    requires cfg.Valid() && cfg.shards == 2 && Crosses(cfg, tx) && forall a :: a in m ==> m[a] < 2
    ensures Reachable(cfg, s) && s.hist.committed == {1} && |s.shards| == 2
    ensures s.shards[0] == HandleReady(DeclareReady(HasMap(FRESH_SHARD, m), 0), 1, 2)
    ensures s.shards[1].stage.AwaitingReady? && s.shards[1].maps == [m]
    ensures s.shards[1].ready == {1} && s.shards[1].heard == map[] && s.shards[1].readySeq == map[]
    ensures s.net == [Relay(1, 0, [Mark(tx)], 1), BlockInfo(1, 0), Ready(0, 1, 1)]
  {
    var acc;
    s, acc := Relayed(cfg, tx);
    var x, y := Relay(1, 0, [Mark(tx)], 1), BlockInfo(1, 0);
    s := Mapped(cfg, s, s.shards[1], [x, y], m);
    s := Announced(cfg, s, s.shards[0], s.shards[1], [x, y], s.sup);
    s := Heard(cfg, s, s.shards[0], s.shards[1], x, y, s.sup);
  }

  /** The barrier can pass at a shard while a relayed transaction is still on its way to it, whatever the
      map does with its recipient: the shard has not heard from the sender. */
  lemma RelayBehindBarrier(cfg: Config, tx: Tx, m: PartitionMap) returns (s: System)
    requires cfg.Valid() && cfg.shards == 2 && Crosses(cfg, tx) && forall a :: a in m ==> m[a] < 2
    ensures Reachable(cfg, s) && |s.shards| == 2 && s.shards[0].maps == [m]
    ensures s.shards[0].stage.AwaitingReady? && PartitionReady(s.shards[0], 2) && Possible(cfg, s, ShipStep(0))
    ensures Relay(1, 0, [Mark(tx)], 1) in s.net
    ensures 1 in s.hist.committed && 1 !in s.shards[0].heard
  {
    s := BehindBarrier(cfg, tx, m);
    assert s.net[0] == Relay(1, 0, [Mark(tx)], 1);
    assert s.shards[0].ready == {0, 1};
  }

  lemma Heard(cfg: Config, s: System, a: Shard, b: Shard, x: Packet, y: Packet, sup: Supervisor) returns (t: System)
    requires Reachable(cfg, s) && Looks(s, a, b, [x, y] + [Ready(0, 1, 1), Ready(1, 0, 2)], sup)
    requires x.Relay? && y.BlockInfo?
    ensures Reachable(cfg, t) && t.hist == s.hist
    ensures Looks(t, HandleReady(a, 1, 2), b, [x, y, Ready(0, 1, 1)], sup)
  {
    var before := [x, y, Ready(0, 1, 1)];
    assert before + [Ready(1, 0, 2)] + [] == [x, y] + [Ready(0, 1, 1), Ready(1, 0, 2)];
    t := Arrive(cfg, s, a, b, before, Ready(1, 0, 2), [], sup);
    assert before + [] == before;
  }

  // ---------- One shard is a round ahead ----------

  predicate Waiting(sh: Shard, m: PartitionMap) {
    sh.stage.AwaitingReady? && PartitionReady(sh, 2) && sh.maps == [m] && sh.round == 0
    && sh.received == map[] && !sh.collectOver && sh.pmap == map[]
  }

  lemma BothWaiting(cfg: Config, m: PartitionMap) returns (s: System)
    requires cfg.Valid() && cfg.shards == 2 && forall a :: a in m ==> m[a] < 2
    ensures Reachable(cfg, s) && s.hist.committed == {} && |s.shards| == 2 && s.net == [] && s.sup == MovedOnce(m)
    ensures Waiting(s.shards[0], m) && Waiting(s.shards[1], m)
  {
    s := Start(cfg);
    s := Mapped(cfg, s, FRESH_SHARD, [], m);
    s := Announced(cfg, s, HasMap(FRESH_SHARD, m), HasMap(FRESH_SHARD, m), [], MovedOnce(m));
    s := BothHear(cfg, s, s.shards[0], s.shards[1], m);
    assert s.shards[0].ready == {0, 1} && s.shards[1].ready == {0, 1};
  }

  lemma BothHear(cfg: Config, s: System, a: Shard, b: Shard, m: PartitionMap) returns (t: System)
    requires Reachable(cfg, s) && Looks(s, a, b, [] + [Ready(0, 1, 1), Ready(1, 0, 1)], MovedOnce(m))
    ensures Reachable(cfg, t) && t.hist == s.hist
    ensures Looks(t, HandleReady(a, 1, 1), HandleReady(b, 0, 1), [], MovedOnce(m))
  {
    assert [] + [Ready(0, 1, 1), Ready(1, 0, 1)] == [] + [Ready(0, 1, 1)] + [Ready(1, 0, 1)];
    t := Arrive(cfg, s, a, b, [], Ready(0, 1, 1), [Ready(1, 0, 1)], MovedOnce(m));
    assert [] + [Ready(1, 0, 1)] == [] + [Ready(1, 0, 1)] + [];
    t := Arrive(cfg, t, a, HandleReady(b, 0, 1), [], Ready(1, 0, 1), [], MovedOnce(m));
  }

  predicate Collected(sh: Shard, m: PartitionMap, k: ShardId) {
    sh.stage.Collecting? && sh.collectOver && sh.maps == [m] && sh.round == 0 && sh.received.Keys == {1 - k}
    && sh.pmap == map[]
  }

  lemma OneShipment(parcels: seq<Parcel>)
    requires |parcels| == 2
    ensures Shipments(parcels, 0, 2) == [Shipment(0, 1, parcels[1])]
    ensures Shipments(parcels, 1, 2) == [Shipment(1, 0, parcels[0])]
  {
    assert Shipments(parcels, 0, 0) == [] && Shipments(parcels, 1, 0) == [];
    assert Shipments(parcels, 0, 1) == [] + [] && Shipments(parcels, 1, 1) == [] + [Shipment(1, 0, parcels[0])];
    assert Shipments(parcels, 0, 2) == [] + [Shipment(0, 1, parcels[1])];
    assert Shipments(parcels, 1, 2) == [Shipment(1, 0, parcels[0])] + [];
  }

  lemma BothShipped(cfg: Config, s: System, m: PartitionMap) returns (t: System, p: Parcel, q: Parcel)
    requires cfg.Valid() && cfg.shards == 2 && Reachable(cfg, s) && |s.shards| == 2 && s.net == []
    requires s.hist.committed == {} && Waiting(s.shards[0], m) && Waiting(s.shards[1], m)
    ensures Reachable(cfg, t) && t.hist == s.hist
    ensures Looks(t, Ship(cfg, s.shards[0], 0), Ship(cfg, s.shards[1], 1),
      [Shipment(0, 1, p)] + [Shipment(1, 0, q)], s.sup)
  {
    p, q := ParcelFor(cfg, s.shards[0], 0, 1), ParcelFor(cfg, s.shards[1], 1, 0);
    t := ShipsFirst(cfg, s, p);
    t := ShipsSecond(cfg, t, p, q);
  }

  lemma ShipsFirst(cfg: Config, s: System, p: Parcel) returns (t: System)
    requires cfg.Valid() && cfg.shards == 2 && Reachable(cfg, s) && |s.shards| == 2 && s.net == []
    requires s.hist.committed == {} && s.shards[0].maps != [] && p == ParcelFor(cfg, s.shards[0], 0, 1)
    requires s.shards[0].stage.AwaitingReady? && PartitionReady(s.shards[0], 2)
    ensures Reachable(cfg, t) && t.hist == s.hist
    ensures Looks(t, Ship(cfg, s.shards[0], 0), s.shards[1], [Shipment(0, 1, p)], s.sup)
  {
    OneShipment(Parcels(cfg, s.shards[0], 0));
    t := Take(cfg, s, ShipStep(0));
    assert [] + [Shipment(0, 1, p)] == [Shipment(0, 1, p)];
  }

  lemma ShipsSecond(cfg: Config, s: System, p: Parcel, q: Parcel) returns (t: System)
    requires cfg.Valid() && cfg.shards == 2 && Reachable(cfg, s) && |s.shards| == 2 && s.net == [Shipment(0, 1, p)]
    requires s.hist.committed == {} && s.shards[1].maps != [] && q == ParcelFor(cfg, s.shards[1], 1, 0)
    requires s.shards[1].stage.AwaitingReady? && PartitionReady(s.shards[1], 2)
    ensures Reachable(cfg, t) && t.hist == s.hist
    ensures Looks(t, s.shards[0], Ship(cfg, s.shards[1], 1), [Shipment(0, 1, p)] + [Shipment(1, 0, q)], s.sup)
  {
    OneShipment(Parcels(cfg, s.shards[1], 1));
    t := Take(cfg, s, ShipStep(1));
  }

  lemma BothCollected(cfg: Config, m: PartitionMap) returns (s: System)
    requires cfg.Valid() && cfg.shards == 2 && forall a :: a in m ==> m[a] < 2
    ensures Reachable(cfg, s) && |s.shards| == 2 && s.net == [] && s.sup == MovedOnce(m)
    ensures Collected(s.shards[0], m, 0) && Collected(s.shards[1], m, 1)
  {
    var p, q;
    s := BothWaiting(cfg, m);
    s, p, q := BothShipped(cfg, s, m);
    s := BothCollect(cfg, s, s.shards[0], s.shards[1], p, q, m);
    assert s.shards[0].received == map[1 := q] && s.shards[1].received == map[0 := p];
  }

  lemma BothCollect(cfg: Config, s: System, a: Shard, b: Shard, p: Parcel, q: Parcel, m: PartitionMap)
    returns (t: System)
    requires cfg.shards == 2 && Reachable(cfg, s)
    requires Looks(s, a, b, [Shipment(0, 1, p)] + [Shipment(1, 0, q)], MovedOnce(m))
    ensures Reachable(cfg, t) && t.hist == s.hist
    ensures Looks(t, HandleShipment(a, 2, 1, q), HandleShipment(b, 2, 0, p), [], MovedOnce(m))
  {
    assert [Shipment(0, 1, p)] + [Shipment(1, 0, q)] == [] + [Shipment(0, 1, p)] + [Shipment(1, 0, q)];
    t := Arrive(cfg, s, a, b, [], Shipment(0, 1, p), [Shipment(1, 0, q)], MovedOnce(m));
    assert [] + [Shipment(1, 0, q)] == [] + [Shipment(1, 0, q)] + [];
    t := Arrive(cfg, t, a, HandleShipment(b, 2, 0, p), [], Shipment(1, 0, q), [], MovedOnce(m));
  }

  predicate RequestOpen(sh: Shard, m: PartitionMap) {
    sh.stage.PartitionOpen? && sh.stage.atm.atid == 1 && sh.maps == [m] && sh.round == 0
  }

  /** Shard `k` opens its request. */
  lemma Opens(cfg: Config, s: System, m: PartitionMap, k: ShardId) returns (t: System)
    requires Reachable(cfg, s) && |s.shards| == 2 && k < 2 && Collected(s.shards[k], m, k)
    ensures Reachable(cfg, t) && |t.shards| == 2 && t.net == s.net && t.sup == s.sup
    ensures RequestOpen(t.shards[k], m) && t.shards[1 - k] == s.shards[1 - k]
  {
    t := Take(cfg, s, OpenPartitionStep(k, [1 - k]));
  }

  lemma EmptyBlock(cfg: Config, sh: Shard)
    requires cfg.shards == 2
    ensures BlockMsgs(cfg, sh, 0, []) == [Relay(0, 1, [], sh.seqId), BlockInfo(0, sh.round)]
    ensures BlockMsgs(cfg, sh, 1, []) == [Relay(1, 0, [], sh.seqId), BlockInfo(1, sh.round)]
  {
    assert RelayMsgs(cfg, sh, 0, [], 0) == [] && RelayMsgs(cfg, sh, 1, [], 0) == [];
    assert RelayMsgs(cfg, sh, 0, [], 1) == [] + [] && RelayMsgs(cfg, sh, 1, [], 1) == [] + [Relay(1, 0, [], sh.seqId)];
    assert RelayMsgs(cfg, sh, 0, [], 2) == [] + [Relay(0, 1, [], sh.seqId)];
    assert RelayMsgs(cfg, sh, 1, [], 2) == [Relay(1, 0, [], sh.seqId)] + [];
  }

  /** The shard finished the round and waits for the next. */
  predicate Rested(sh: Shard, m: PartitionMap) {
    sh.stage.Idle? && !sh.partitionOn && sh.maps == [m] && sh.round == 1
  }

  function MovedTwice(m: PartitionMap, m2: PartitionMap): Supervisor {
    Supervisor(map[] + m + m2, [m, m2], 1)
  }

  /** Shard 0 finishes the round and commits an empty block, while shard 1 does nothing. */
  lemma OneAhead(cfg: Config, s: System, m: PartitionMap) returns (t: System, x: Packet)
    requires cfg.Valid() && cfg.shards == 2 && Reachable(cfg, s) && |s.shards| == 2 && s.net == []
    requires RequestOpen(s.shards[0], m) && s.sup == MovedOnce(m)
    ensures Reachable(cfg, t) && |t.shards| == 2 && t.net == [x, BlockInfo(0, 1)] && t.sup == s.sup
    ensures x.Relay? && x.from == 0 && x.to == 1 && Rested(t.shards[0], m) && t.shards[1] == s.shards[1]
  {
    t := Take(cfg, s, CommitPartitionStep(0));
    t := Take(cfg, t, OpenBlockStep(0, 0));
    EmptyBlock(cfg, t.shards[0]);
    x := Relay(0, 1, [], t.shards[0].seqId);
    t := Take(cfg, t, CommitBlockStep(0));
  }

  lemma EpochEnds(cfg: Config, s: System, x: Packet, m: PartitionMap) returns (t: System)
    requires Reachable(cfg, s) && s.net == [x, BlockInfo(0, 1)] && x.Relay? && s.sup == MovedOnce(m)
    ensures Reachable(cfg, t) && t.shards == s.shards && t.net == [x] && t.sup == MovedOnce(m).(curEpoch := 1)
  {
    assert s.net == [x] + [BlockInfo(0, 1)] + [];
    Without([x], BlockInfo(0, 1), []);
    t := Take(cfg, s, DeliverStep(1));
  }

  /** The supervisor, told by shard 0 that the round is over, hands out the next map while shard 1 has not
      finished the round. */
  lemma SecondMapOut(cfg: Config, s: System, m: PartitionMap, m2: PartitionMap) returns (t: System, x: Packet)
    requires cfg.Valid() && cfg.shards == 2 && Reachable(cfg, s) && |s.shards| == 2 && s.net == []
    requires RequestOpen(s.shards[0], m) && s.sup == MovedOnce(m) && forall a :: a in m2 ==> m2[a] < 2
    ensures Reachable(cfg, t) && |t.shards| == 2 && x.Relay? && x.from == 0 && x.to == 1
    ensures t.net == [x] + [MapMsg(0, m2)] + [MapMsg(1, m2)] && t.sup == MovedTwice(m, m2)
    ensures Rested(t.shards[0], m) && t.shards[1] == s.shards[1]
  {
    t, x := OneAhead(cfg, s, m);
    t := EpochEnds(cfg, t, x, m);
    t := Take(cfg, t, IssueMapStep(m2));
    TwoMapMsgs(m2);
    assert [m] + [m2] == [m, m2];
  }

  lemma BothOpen(cfg: Config, m: PartitionMap) returns (s: System)
    requires cfg.Valid() && cfg.shards == 2 && forall a :: a in m ==> m[a] < 2
    ensures Reachable(cfg, s) && |s.shards| == 2 && s.net == [] && s.sup == MovedOnce(m)
    ensures RequestOpen(s.shards[0], m) && RequestOpen(s.shards[1], m)
  {
    s := BothCollected(cfg, m);
    s := Opens(cfg, s, m, 0);
    s := Opens(cfg, s, m, 1);
  }

  /** The next map arrives while shard 1 has its partition request open: committing it, the shard stalls. */
  lemma MapStalls(cfg: Config, m: PartitionMap, m2: PartitionMap) returns (s: System)
    requires cfg.Valid() && cfg.shards == 2
    requires (forall a :: a in m ==> m[a] < 2) && forall a :: a in m2 ==> m2[a] < 2
    ensures Reachable(cfg, s) && |s.shards| == 2 && Overtaken(cfg, s, 1)
    ensures Reachable(cfg, Do(cfg, s, CommitPartitionStep(1))) && Stalled(Do(cfg, s, CommitPartitionStep(1)).shards[1])
  {
    var x;
    s := BothOpen(cfg, m);
    s, x := SecondMapOut(cfg, s, m, m2);
    var before := [x] + [MapMsg(0, m2)];
    assert before + [MapMsg(1, m2)] + [] == s.net;
    s := Arrive(cfg, s, s.shards[0], s.shards[1], before, MapMsg(1, m2), [], s.sup);
    var t := Take(cfg, s, CommitPartitionStep(1));
  }

  /** Shard 0, a round ahead, announces the next round while shard 1 has its partition request open. */
  lemma AnnouncedAhead(cfg: Config, m: PartitionMap, m2: PartitionMap) returns (s: System, x: Packet)
    requires cfg.Valid() && cfg.shards == 2
    requires (forall a :: a in m ==> m[a] < 2) && forall a :: a in m2 ==> m2[a] < 2
    ensures Reachable(cfg, s) && |s.shards| == 2 && x.Relay? && RequestOpen(s.shards[1], m)
    ensures s.shards[0].round == 1 && s.shards[0].stage.AwaitingReady?
    ensures s.net == [x] + [MapMsg(1, m2)] + [Ready(0, 1, s.shards[0].seqId)]
  {
    s := BothOpen(cfg, m);
    s, x := SecondMapOut(cfg, s, m, m2);
    s := Arrive(cfg, s, s.shards[0], s.shards[1], [x], MapMsg(0, m2), [MapMsg(1, m2)], s.sup);
    OneReady(s.shards[0]);
    s := Take(cfg, s, DeclareReadyStep(0));
  }

  lemma NoReadyLeft(x: Packet, y: Packet)
    requires !x.Ready? && !y.Ready?
    ensures Count([x] + [y] + [], ReadyTag(0, 1)) == 0
  {
    CountSnoc([], x, ReadyTag(0, 1));
    CountSnoc([x], y, ReadyTag(0, 1));
    assert [] + [x] == [x] && [x] + [y] + [] == [x] + [y];
  }

  /** It arrives there, and committing the request erases it. */
  lemma AnnouncementErased(cfg: Config, m: PartitionMap, m2: PartitionMap) returns (s: System)
    requires cfg.Valid() && cfg.shards == 2
    requires (forall a :: a in m ==> m[a] < 2) && forall a :: a in m2 ==> m2[a] < 2
    ensures Reachable(cfg, s) && Erasing(cfg, s, 0, 1)
    ensures Reachable(cfg, Do(cfg, s, CommitPartitionStep(1)))
  {
    var x;
    s, x := AnnouncedAhead(cfg, m, m2);
    var ready, before := Ready(0, 1, s.shards[0].seqId), [x] + [MapMsg(1, m2)];
    assert before + [ready] + [] == s.net;
    s := Arrive(cfg, s, s.shards[0], s.shards[1], before, ready, [], s.sup);
    NoReadyLeft(x, MapMsg(1, m2));
    var t := Take(cfg, s, CommitPartitionStep(1));
  }
}
