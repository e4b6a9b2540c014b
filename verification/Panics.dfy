/**
 Without the two assumptions on timing the commit handler's panic is reached: two runs of a system of two
 shards, one for each assumption, that end with a foreign transaction in an open block.
 */
module Panics {
  import opened Ledger
  import opened Execution
  import opened Shards
  import opened Protocol
  import opened Scenarios

  lemma LooseRunGrows(cfg: Config, run: seq<System>, t: System)
    requires IsLooseRun(cfg, run) && MayFollow(cfg, run[|run| - 1], t)
    ensures IsLooseRun(cfg, run + [t])
  {
    var longer := run + [t];
    forall i: nat | i + 1 < |longer| ensures NextMayFollow(cfg, longer, i) {
      if i + 1 < |run| {
        assert NextMayFollow(cfg, run, i);
      }
    }
  }

  lemma Try(cfg: Config, s: System, step: Step) returns (t: System)
    requires Attainable(cfg, s) && Possible(cfg, s, step)
    ensures Attainable(cfg, t) && t == Do(cfg, s, step)
  {
    t := Do(cfg, s, step);
    var run :| IsLooseRun(cfg, run) && run[|run| - 1] == s;
    LooseRunGrows(cfg, run, t);
    assert (run + [t])[|run + [t]| - 1] == t;
  }

  /** What is reachable in time is reachable. */
  lemma ReachableIsAttainable(cfg: Config, s: System)
    requires Reachable(cfg, s)
    ensures Attainable(cfg, s)
  {
    var run :| IsRun(cfg, run) && run[|run| - 1] == s;
    forall i: nat | i + 1 < |run| ensures NextMayFollow(cfg, run, i) {
      assert NextFollows(cfg, run, i);
    }
  }

  /** A message that is next on its link reaches its receiver, whenever that is. */
  lemma Land(cfg: Config, s: System, a: Shard, b: Shard, before: seq<Packet>, pkt: Packet, after: seq<Packet>,
             sup: Supervisor) returns (t: System)
    requires Attainable(cfg, s) && Looks(s, a, b, before + [pkt] + after, sup)
    requires (forall q :: 0 <= q < |before| ==> LinkOf(before[q]) != LinkOf(pkt)) && !pkt.BlockInfo? && pkt.to < 2
    ensures Attainable(cfg, t)
    ensures Looks(t, if pkt.to == 0 then Received(cfg, a, pkt) else a,
                  if pkt.to == 1 then Received(cfg, b, pkt) else b, before + after, sup)
  {
    Without(before, pkt, after);
    t := Try(cfg, s, DeliverStep(|before|));
  }

  /** Shard `k` has a transaction in its open block that makes its commit handler panic. */
  ghost predicate Panicking(cfg: Config, s: System, k: ShardId, tx: Tx) {
    k < |s.shards| && s.shards[k].stage.BlockOpen? && tx in s.shards[k].stage.body
    && IncorrectTx(SiteOf(cfg, s.shards[k], k), tx)
  }

  /** A shard that is idle in no round can put its whole queue in a block. */
  lemma WholeQueue(cfg: Config, s: System, k: ShardId, tx: Tx) returns (t: System)
    requires Attainable(cfg, s) && k < |s.shards| && s.shards[k].stage.Idle? && !s.shards[k].partitionOn
    requires tx in s.shards[k].queue && IncorrectTx(SiteOf(cfg, s.shards[k], k), tx)
    ensures Attainable(cfg, t) && Panicking(cfg, t, k, tx)
  {
    var queue := s.shards[k].queue;
    assert queue[..|queue|] == queue;
    t := Try(cfg, s, OpenBlockStep(k, |queue|));
  }

  // ---------- A map that arrives while its receiver is collecting ----------

  predicate CollectsTwo(b: Shard, m: PartitionMap, m2: PartitionMap) {
    b.stage.Collecting? && b.collectOver && b.maps == [m, m2] && b.round == 0 && b.received.Keys == {0}
    && b.pmap == map[]
  }

  lemma GetsSecond(b: Shard, m: PartitionMap, m2: PartitionMap)
    requires Collected(b, m, 1)
    ensures CollectsTwo(HandlePartitionMsg(b, m2), m, m2)
  {
    assert [m] + [m2] == [m, m2];
  }

  /** Shard 1 collects, and the next map is on its way to it. */
  lemma MapOnItsWay(cfg: Config, m: PartitionMap, m2: PartitionMap) returns (s: System, x: Packet)
    requires cfg.Valid() && cfg.shards == 2
    requires (forall a :: a in m ==> m[a] < 2) && forall a :: a in m2 ==> m2[a] < 2
    ensures Attainable(cfg, s) && |s.shards| == 2 && x.Relay? && x.from == 0 && Collected(s.shards[1], m, 1)
    ensures s.net == [x] + [MapMsg(0, m2)] + [MapMsg(1, m2)] && s.sup == MovedTwice(m, m2)
  {
    s := BothCollected(cfg, m);
    s := Opens(cfg, s, m, 0);
    s, x := SecondMapOut(cfg, s, m, m2);
    ReachableIsAttainable(cfg, s);
  }

  /** Shard 1 collects with the next map in hand. */
  lemma MapWhileCollecting(cfg: Config, m: PartitionMap, m2: PartitionMap) returns (s: System, x: Packet)
    requires cfg.Valid() && cfg.shards == 2
    requires (forall a :: a in m ==> m[a] < 2) && forall a :: a in m2 ==> m2[a] < 2
    ensures Attainable(cfg, s) && |s.shards| == 2 && x.Relay? && x.from == 0
    ensures s.net == [x] + [MapMsg(0, m2)] && s.sup == MovedTwice(m, m2) && CollectsTwo(s.shards[1], m, m2)
  {
    s, x := MapOnItsWay(cfg, m, m2);
    GetsSecond(s.shards[1], m, m2);
    var before := [x] + [MapMsg(0, m2)];
    assert before + [MapMsg(1, m2)] + [] == s.net && before + [] == before;
    s := Land(cfg, s, s.shards[0], s.shards[1], before, MapMsg(1, m2), [], s.sup);
  }

  /** It finishes two rounds at once, with one map. */
  predicate Jumped(b: Shard, m: PartitionMap) {
    b.stage.Idle? && !b.partitionOn && b.round == 2 && b.pmap == map[] + m
  }

  lemma Jumps(cfg: Config, m: PartitionMap, m2: PartitionMap) returns (s: System, x: Packet)
    requires cfg.Valid() && cfg.shards == 2
    requires (forall a :: a in m ==> m[a] < 2) && forall a :: a in m2 ==> m2[a] < 2
    ensures Attainable(cfg, s) && |s.shards| == 2 && x.Relay? && x.from == 0 && Jumped(s.shards[1], m)
    ensures s.net == [x] + [MapMsg(0, m2)] && s.sup == MovedTwice(m, m2)
  {
    s, x := MapWhileCollecting(cfg, m, m2);
    s := Try(cfg, s, OpenPartitionStep(1, [0]));
    s := Try(cfg, s, CommitPartitionStep(1));
  }

  /** It reports. */
  lemma TwoRoundsAtOnce(cfg: Config, m: PartitionMap, m2: PartitionMap) returns (s: System, x: Packet, y: Packet)
    requires cfg.Valid() && cfg.shards == 2
    requires (forall a :: a in m ==> m[a] < 2) && forall a :: a in m2 ==> m2[a] < 2
    ensures Attainable(cfg, s) && |s.shards| == 2 && x.Relay? && y.Relay? && x.from == 0 && y.from == 1
    ensures s.net == [x, MapMsg(0, m2), y] + [BlockInfo(1, 2)] && s.sup == MovedTwice(m, m2)
    ensures Jumped(s.shards[1], m)
  {
    s, x := Jumps(cfg, m, m2);
    s, y := Reports(cfg, s, m);
    assert [x] + [MapMsg(0, m2)] + [y, BlockInfo(1, 2)] == [x, MapMsg(0, m2), y] + [BlockInfo(1, 2)];
  }

  lemma Reports(cfg: Config, s: System, m: PartitionMap) returns (t: System, y: Packet)
    requires cfg.shards == 2 && Attainable(cfg, s) && |s.shards| == 2 && Jumped(s.shards[1], m)
    ensures Attainable(cfg, t) && |t.shards| == 2 && y.Relay? && y.from == 1 && Jumped(t.shards[1], m)
    ensures t.net == s.net + [y, BlockInfo(1, 2)] && t.sup == s.sup
  {
    t := Try(cfg, s, OpenBlockStep(1, 0));
    EmptyBlock(cfg, t.shards[1]);
    y := Relay(1, 0, [], t.shards[1].seqId);
    t := Try(cfg, t, CommitBlockStep(1));
  }

  /** The report ends the supervisor's epoch. */
  lemma SecondEpochEnds(cfg: Config, s: System, before: seq<Packet>, m: PartitionMap, m2: PartitionMap)
    returns (t: System)
    requires Attainable(cfg, s) && s.net == before + [BlockInfo(1, 2)] && s.sup == MovedTwice(m, m2)
    requires forall q :: 0 <= q < |before| ==> !before[q].BlockInfo?
    ensures Attainable(cfg, t) && t.shards == s.shards && t.net == before && t.sup == MovedTwice(m, m2).(curEpoch := 2)
  {
    Without(before, BlockInfo(1, 2), []);
    assert before + [BlockInfo(1, 2)] + [] == s.net && before + [] == before;
    t := Try(cfg, s, DeliverStep(|before|));
  }

  /** The supervisor injects where it takes the sender to live. */
  lemma Injected(cfg: Config, s: System, before: seq<Packet>, tx: Tx) returns (t: System)
    requires Attainable(cfg, s) && |s.shards| == 2 && s.net == before && s.sup.curEpoch == |s.sup.issued|
    requires forall q :: 0 <= q < |before| ==> LinkOf(before[q]) != SupervisorLink(1)
    requires !tx.relayed && !tx.hasBroker && HomeOf(cfg, s.sup.modifiedMap, tx.sender) == 1
    ensures Attainable(cfg, t) && |t.shards| == 2
    ensures t.shards[1] == HandleInject(s.shards[1], [tx])
  {
    t := Try(cfg, s, InjectStep(1, [tx]));
    assert t.net == before + [Inject(1, [tx])] + [];
    t := Land(cfg, t, s.shards[0], s.shards[1], before, Inject(1, [tx]), [], s.sup);
  }

  /** A map that arrives while its receiver is collecting ends in the panic: for any two maps of which the
      second moves the sender to shard 1 and the first does not, shard 1 gets a transaction it has no account
      for. */
  lemma EarlyMapPanics(cfg: Config, m: PartitionMap, m2: PartitionMap, tx: Tx) returns (s: System)
    requires cfg.Valid() && cfg.shards == 2
    requires (forall a :: a in m ==> m[a] < 2) && forall a :: a in m2 ==> m2[a] < 2
    requires !tx.relayed && !tx.hasBroker
    requires HomeOf(cfg, map[] + m, tx.sender) != 1 && HomeOf(cfg, map[] + m + m2, tx.sender) == 1
    ensures Attainable(cfg, s) && Panicking(cfg, s, 1, tx)
  {
    var x, y;
    s, x, y := TwoRoundsAtOnce(cfg, m, m2);
    s := SecondEpochEnds(cfg, s, [x, MapMsg(0, m2), y], m, m2);
    s := Injected(cfg, s, [x, MapMsg(0, m2), y], tx);
    s := WholeQueue(cfg, s, 1, tx);
  }

  // ---------- A shard that ships before it has heard ----------

  /** A shard that passes the barrier test ships. */
  lemma Ships(cfg: Config, s: System, k: ShardId) returns (t: System, p: Packet)
    requires cfg.shards == 2 && Attainable(cfg, s) && |s.shards| == 2 && k < 2 && s.shards[k].maps != []
    requires s.shards[k].stage.AwaitingReady? && PartitionReady(s.shards[k], 2)
    ensures Attainable(cfg, t) && |t.shards| == 2 && t.sup == s.sup
    ensures t.shards[k] == Ship(cfg, s.shards[k], k) && t.shards[1 - k] == s.shards[1 - k]
    ensures p.Shipment? && p.from == k && p.to == 1 - k && t.net == s.net + [p]
  {
    OneShipment(Parcels(cfg, s.shards[k], k));
    p := Shipment(k, 1 - k, ParcelFor(cfg, s.shards[k], k, 1 - k));
    t := Try(cfg, s, ShipStep(k));
  }

  /** A shard that has shipped and received nothing yet. */
  predicate Gathering(a: Shard, m: PartitionMap) {
    a.stage.Collecting? && a.maps == [m] && a.round == 0 && a.pmap == map[] && a.received == map[] && !a.collectOver
  }

  /** A shard that waits for the announcement of shard 0 only. */
  predicate Expecting(b: Shard, m: PartitionMap) {
    b.stage.AwaitingReady? && b.maps == [m] && b.ready == {1} && b.heard == map[] && b.readySeq == map[]
  }

  lemma BarrierPasses(cfg: Config, a: Shard, m: PartitionMap)
    requires cfg.shards == 2 && a == HandleReady(DeclareReady(HasMap(FRESH_SHARD, m), 0), 1, 2)
    ensures PartitionReady(a, 2) && Gathering(Ship(cfg, a, 0), m)
  {
    assert a.ready == {0, 1};
  }

  lemma ExpectedComes(b: Shard, m: PartitionMap)
    requires Expecting(b, m)
    ensures PartitionReady(HandleReady(b, 0, 1), 2)
  {
    assert HandleReady(b, 0, 1).ready == {0, 1};
  }

  /** Shard 0 ships although a relay is on its way to it. */
  lemma ShipsUnheard(cfg: Config, tx: Tx, m: PartitionMap) returns (s: System, p: Packet)
    requires cfg.Valid() && cfg.shards == 2 && Crosses(cfg, tx) && forall a :: a in m ==> m[a] < 2
    ensures Attainable(cfg, s) && |s.shards| == 2 && p.Shipment? && p.from == 0
    ensures s.net == [] + [Relay(1, 0, [Mark(tx)], 1)] + [BlockInfo(1, 0), Ready(0, 1, 1), p]
    ensures Gathering(s.shards[0], m) && Expecting(s.shards[1], m)
  {
    s := ReadyToShip(cfg, tx, m);
    var x, y, r := Relay(1, 0, [Mark(tx)], 1), BlockInfo(1, 0), Ready(0, 1, 1);
    s, p := Ships(cfg, s, 0);
    assert [x, y, r] + [p] == [] + [x] + [y, r, p];
  }

  lemma ReadyToShip(cfg: Config, tx: Tx, m: PartitionMap) returns (s: System)
    requires cfg.Valid() && cfg.shards == 2 && Crosses(cfg, tx) && forall a :: a in m ==> m[a] < 2
    ensures Attainable(cfg, s) && |s.shards| == 2
    ensures s.net == [Relay(1, 0, [Mark(tx)], 1), BlockInfo(1, 0), Ready(0, 1, 1)]
    ensures s.shards[0].maps == [m] && s.shards[0].stage.AwaitingReady? && PartitionReady(s.shards[0], 2)
    ensures Gathering(Ship(cfg, s.shards[0], 0), m) && Expecting(s.shards[1], m)
  {
    s := BehindBarrier(cfg, tx, m);
    ReachableIsAttainable(cfg, s);
    BarrierPasses(cfg, s.shards[0], m);
  }

  /** The relay arrives after shipping. */
  lemma LateRelay(cfg: Config, tx: Tx, m: PartitionMap) returns (s: System, p: Packet)
    requires cfg.Valid() && cfg.shards == 2 && Crosses(cfg, tx) && forall a :: a in m ==> m[a] < 2
    ensures Attainable(cfg, s) && |s.shards| == 2 && p.Shipment? && p.from == 0
    ensures s.net == [BlockInfo(1, 0)] + [Ready(0, 1, 1)] + [p]
    ensures Gathering(s.shards[0], m) && Mark(tx) in s.shards[0].queue && Expecting(s.shards[1], m)
  {
    s, p := ShipsUnheard(cfg, tx, m);
    var y, r := BlockInfo(1, 0), Ready(0, 1, 1);
    s := Land(cfg, s, s.shards[0], s.shards[1], [], Relay(1, 0, [Mark(tx)], 1), [y, r, p], s.sup);
    assert [] + [y, r, p] == [y] + [r] + [p];
  }

  /** The other shard passes the barrier and ships, too. */
  lemma OtherShips(cfg: Config, tx: Tx, m: PartitionMap) returns (s: System, p: Packet, q: Packet)
    requires cfg.Valid() && cfg.shards == 2 && Crosses(cfg, tx) && forall a :: a in m ==> m[a] < 2
    ensures Attainable(cfg, s) && |s.shards| == 2 && p.Shipment? && p.from == 0
    ensures q.Shipment? && q.from == 1 && q.to == 0
    ensures s.net == [BlockInfo(1, 0)] + [p] + [q]
    ensures Gathering(s.shards[0], m) && Mark(tx) in s.shards[0].queue
  {
    s, p := LateRelay(cfg, tx, m);
    ExpectedComes(s.shards[1], m);
    s := Land(cfg, s, s.shards[0], s.shards[1], [BlockInfo(1, 0)], Ready(0, 1, 1), [p], s.sup);
    s, q := Ships(cfg, s, 1);
  }

  /** Shard 0 has collected, with the late transaction in its queue. */
  lemma LateCollected(cfg: Config, tx: Tx, m: PartitionMap) returns (s: System)
    requires cfg.Valid() && cfg.shards == 2 && Crosses(cfg, tx) && forall a :: a in m ==> m[a] < 2
    ensures Attainable(cfg, s) && |s.shards| == 2 && Collected(s.shards[0], m, 0) && Mark(tx) in s.shards[0].queue
  {
    var p, q;
    s, p, q := OtherShips(cfg, tx, m);
    var before := [BlockInfo(1, 0)] + [p];
    assert s.net == before + [q] + [];
    s := Land(cfg, s, s.shards[0], s.shards[1], before, q, [], s.sup);
    assert s.shards[0].received == map[1 := q.parcel];
  }

  /** Shard 0 finishes the round with that transaction in its queue. */
  lemma Finishes(cfg: Config, s: System, tx: Tx, m: PartitionMap) returns (t: System)
    requires Attainable(cfg, s) && |s.shards| == 2 && Collected(s.shards[0], m, 0) && tx in s.shards[0].queue
    ensures Attainable(cfg, t) && |t.shards| == 2
    ensures var a := t.shards[0]; a.stage.Idle? && !a.partitionOn && a.pmap == map[] + m && tx in a.queue
  {
    t := Try(cfg, s, OpenPartitionStep(0, [1]));
    t := Try(cfg, t, CommitPartitionStep(0));
  }

  /** A shard that ships before it has heard from a peer that has committed a block ends in the panic: for any
      crossing transaction whose recipient the map takes away from it. */
  lemma LateRelayPanics(cfg: Config, tx: Tx, m: PartitionMap) returns (s: System)
    requires cfg.Valid() && cfg.shards == 2 && Crosses(cfg, tx) && forall a :: a in m ==> m[a] < 2
    requires tx.recipient in m && m[tx.recipient] == 1
    ensures Attainable(cfg, s) && Panicking(cfg, s, 0, Mark(tx))
  {
    s := LateCollected(cfg, tx, m);
    s := Finishes(cfg, s, Mark(tx), m);
    s := WholeQueue(cfg, s, 0, Mark(tx));
  }
}
