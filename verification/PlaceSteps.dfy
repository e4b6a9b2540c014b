/** Every step keeps transactions and accounts in their places. */
module PlaceSteps {
  import opened Ledger
  import opened Execution
  import opened Shards
  import opened Protocol
  import opened Rounds
  import opened RoundSteps
  import opened Places

  // ---------- Supervisor ----------

  lemma InjectPlaced(cfg: Config, s: System, k: ShardId, txs: seq<Tx>)
    requires InRounds(cfg, s) && Placed(cfg, s) && Enabled(cfg, s, InjectStep(k, txs))
    ensures Placed(cfg, Do(cfg, s, InjectStep(k, txs)))
  {
    AllCaughtUp(cfg, s, k);
    assert PacketPlaced(cfg, s.shards, s.sup.issued, s.hist.ledger, Inject(k, txs));
  }

  /** Nothing that is said about the first maps changes when another map is issued. */
  lemma HomeAtExtends(cfg: Config, issued: seq<PartitionMap>, m: PartitionMap, r: nat)
    requires r <= |issued|
    ensures Overlay(issued + [m], r) == Overlay(issued, r)
    ensures forall a :: HomeAt(cfg, issued + [m], r, a) == HomeAt(cfg, issued, r, a)
  {
    OverlayExtends(issued, m, r);
  }

  lemma ParcelExtends(cfg: Config, issued: seq<PartitionMap>, m: PartitionMap, ledger: Accounts, r: nat,
                      i: ShardId, k: ShardId, parcel: Parcel)
    requires ParcelOk(cfg, issued, ledger, r, i, k, parcel)
    ensures ParcelOk(cfg, issued + [m], ledger, r, i, k, parcel)
  {
    HomeAtExtends(cfg, issued, m, r);
    forall a ensures Moves(cfg, issued + [m], r, a, i, k) == Moves(cfg, issued, r, a, i, k) {
    }
  }

  lemma ShardExtends(cfg: Config, issued: seq<PartitionMap>, m: PartitionMap, ledger: Accounts, s: Shard, k: ShardId)
    requires ShardPlaced(cfg, issued, ledger, s, k) && ShardOk(cfg, issued, s, k)
    ensures ShardPlaced(cfg, issued + [m], ledger, s, k)
  {
    HomeAtExtends(cfg, issued, m, s.round);
    HomeAtExtends(cfg, issued, m, Shipped(s));
    forall a ensures Holds(cfg, issued + [m], s, k, a) == Holds(cfg, issued, s, k, a) {
    }
    forall i | i in s.received ensures ParcelOk(cfg, issued + [m], ledger, s.round, i, k, s.received[i]) {
      ParcelExtends(cfg, issued, m, ledger, s.round, i, k, s.received[i]);
    }
  }

  lemma IssueMapPlaced(cfg: Config, s: System, m: PartitionMap)
    requires InRounds(cfg, s) && Placed(cfg, s) && Enabled(cfg, s, IssueMapStep(m))
    ensures Placed(cfg, Do(cfg, s, IssueMapStep(m)))
  {
    var issued, more := s.sup.issued, MapMsgs(m, cfg.shards);
    forall k: nat | k < |s.shards| ensures PlacedAt(cfg, s.shards, issued + [m], s.hist.ledger, k) {
      PlacedShard(cfg, s, k);
      KnownShard(cfg, s.sup.issued, s.shards, k);
      ShardExtends(cfg, issued, m, s.hist.ledger, s.shards[k], k);
    }
    MapMsgsAre(m, cfg.shards);
    forall pkt | pkt in s.net + more ensures PacketPlaced(cfg, s.shards, issued + [m], s.hist.ledger, pkt) {
      if pkt in s.net {
        PlacedPacket(cfg, s, pkt);
        match pkt
        case Shipment(i, k, parcel) => ParcelExtends(cfg, issued, m, s.hist.ledger, s.shards[k].round, i, k, parcel);
        case Inject(k, _) => HomeAtExtends(cfg, issued, m, Shipped(s.shards[k]));
        case Relay(_, k, _, _) => HomeAtExtends(cfg, issued, m, Shipped(s.shards[k]));
        case _ =>
      }
    }
  }

  // ---------- One shard changes, the ledger does not ----------

  /** Packets stay placed when the shard they go to keeps its round and its shipped count. */
  lemma PacketsStay(cfg: Config, shards: seq<Shard>, issued: seq<PartitionMap>, ledger: Accounts, net: seq<Packet>,
                    k: ShardId, sh: Shard)
    requires PacketsPlaced(cfg, shards, issued, ledger, net) && k < |shards|
    requires sh.round == shards[k].round && Shipped(sh) == Shipped(shards[k])
    ensures PacketsPlaced(cfg, shards[k := sh], issued, ledger, net)
  {
    forall pkt | pkt in net ensures PacketPlaced(cfg, shards[k := sh], issued, ledger, pkt) {
    }
  }

  /** A shard that keeps its accounts, parcels, round and shipped count keeps what they mean. */
  lemma AccountsStay(cfg: Config, issued: seq<PartitionMap>, ledger: Accounts, s: Shard, t: Shard, k: ShardId)
    requires Shipped(s) <= |issued| && HeldOk(cfg, issued, ledger, s, k) && ReceivedOk(cfg, issued, ledger, s, k)
    requires t.accounts == s.accounts && t.received == s.received && t.round == s.round && Shipped(t) == Shipped(s)
    ensures HeldOk(cfg, issued, ledger, t, k) && ReceivedOk(cfg, issued, ledger, t, k)
  {
    assert forall a :: Holds(cfg, issued, t, k, a) == Holds(cfg, issued, s, k, a);
  }

  lemma DeliverPlaced(cfg: Config, s: System, p: nat)
    requires InRounds(cfg, s) && Placed(cfg, s) && Deliverable(cfg, s, p)
    ensures Placed(cfg, Deliver(cfg, s, p))
  {
    var pkt := s.net[p];
    PlacedPacket(cfg, s, pkt);
    KnownPacket(s.shards, s.sup.issued, s.net, pkt);
    if !pkt.BlockInfo? {
      PlacedShard(cfg, s, pkt.to);
      DeliveredShard(cfg, s, pkt);
      PacketsStay(cfg, s.shards, s.sup.issued, s.hist.ledger, s.net, pkt.to, Received(cfg, s.shards[pkt.to], pkt));
      ShardPlacedAgain(cfg, s, pkt.to, Received(cfg, s.shards[pkt.to], pkt));
    }
  }

  lemma QueueGrows(cfg: Config, issued: seq<PartitionMap>, ledger: Accounts, sh: Shard, k: ShardId, txs: seq<Tx>,
      t: Shard)
    requires ShardPlaced(cfg, issued, ledger, sh, k) && AllAtHome(SiteAt(cfg, issued, Shipped(sh), k), txs)
    requires t == sh.(queue := sh.queue + txs, heard := t.heard)
    ensures ShardPlaced(cfg, issued, ledger, t, k)
  {
    AccountsStay(cfg, issued, ledger, sh, t, k);
  }

  lemma ParcelArrives(cfg: Config, issued: seq<PartitionMap>, ledger: Accounts, sh: Shard, k: ShardId,
                      i: ShardId, parcel: Parcel, t: Shard)
    requires ShardPlaced(cfg, issued, ledger, sh, k) && ParcelOk(cfg, issued, ledger, sh.round, i, k, parcel)
    requires t == sh.(received := sh.received[i := parcel], collectOver := t.collectOver)
    ensures ShardPlaced(cfg, issued, ledger, t, k)
  {
    assert forall a :: Holds(cfg, issued, t, k, a) == Holds(cfg, issued, sh, k, a);
  }

  lemma RecordChanges(cfg: Config, issued: seq<PartitionMap>, ledger: Accounts, sh: Shard, k: ShardId, t: Shard)
    requires ShardPlaced(cfg, issued, ledger, sh, k)
    requires t == sh.(maps := t.maps, partitionOn := t.partitionOn, ready := t.ready, readySeq := t.readySeq)
    ensures ShardPlaced(cfg, issued, ledger, t, k)
  {
    AccountsStay(cfg, issued, ledger, sh, t, k);
  }

  lemma DeliveredShard(cfg: Config, s: System, pkt: Packet)
    requires !pkt.BlockInfo? && pkt.to < |s.shards|
    requires ShardPlaced(cfg, s.sup.issued, s.hist.ledger, s.shards[pkt.to], pkt.to)
    requires PacketPlaced(cfg, s.shards, s.sup.issued, s.hist.ledger, pkt)
    ensures ShardPlaced(cfg, s.sup.issued, s.hist.ledger, Received(cfg, s.shards[pkt.to], pkt), pkt.to)
  {
    var issued, ledger, sh, t := s.sup.issued, s.hist.ledger, s.shards[pkt.to], Received(cfg, s.shards[pkt.to], pkt);
    match pkt
    case Inject(k, txs) => QueueGrows(cfg, issued, ledger, sh, k, txs, t);
    case Relay(_, k, txs, _) => QueueGrows(cfg, issued, ledger, sh, k, txs, t);
    case Shipment(i, k, parcel) => ParcelArrives(cfg, issued, ledger, sh, k, i, parcel, t);
    case MapMsg(k, _) => RecordChanges(cfg, issued, ledger, sh, k, t);
    case Ready(_, k, _) => RecordChanges(cfg, issued, ledger, sh, k, t);
  }

  lemma OpenBlockShard(cfg: Config, issued: seq<PartitionMap>, ledger: Accounts, sh: Shard, k: ShardId, size: nat)
    requires ShardPlaced(cfg, issued, ledger, sh, k) && sh.stage.Idle? && size <= |sh.queue|
    ensures ShardPlaced(cfg, issued, ledger, OpenBlock(sh, size), k)
  {
    AccountsStay(cfg, issued, ledger, sh, OpenBlock(sh, size), k);
  }

  lemma OpenBlockPlaced(cfg: Config, s: System, k: ShardId, size: nat)
    requires InRounds(cfg, s) && Placed(cfg, s) && Enabled(cfg, s, OpenBlockStep(k, size))
    ensures Placed(cfg, Do(cfg, s, OpenBlockStep(k, size)))
  {
    PlacedShard(cfg, s, k);
    OpenBlockShard(cfg, s.sup.issued, s.hist.ledger, s.shards[k], k, size);
    PacketsStay(cfg, s.shards, s.sup.issued, s.hist.ledger, s.net, k, OpenBlock(s.shards[k], size));
    ShardPlacedAgain(cfg, s, k, OpenBlock(s.shards[k], size));
  }

  lemma DeclareReadyShard(cfg: Config, issued: seq<PartitionMap>, ledger: Accounts, sh: Shard, k: ShardId)
    requires ShardPlaced(cfg, issued, ledger, sh, k) && sh.stage.Idle?
    ensures ShardPlaced(cfg, issued, ledger, DeclareReady(sh, k), k)
  {
    AccountsStay(cfg, issued, ledger, sh, DeclareReady(sh, k), k);
  }

  lemma DeclareReadyPlaced(cfg: Config, s: System, k: ShardId)
    requires InRounds(cfg, s) && Placed(cfg, s) && Enabled(cfg, s, DeclareReadyStep(k))
    ensures Placed(cfg, Do(cfg, s, DeclareReadyStep(k)))
  {
    PlacedShard(cfg, s, k);
    DeclareReadyShard(cfg, s.sup.issued, s.hist.ledger, s.shards[k], k);
    PacketsStay(cfg, s.shards, s.sup.issued, s.hist.ledger, s.net, k, DeclareReady(s.shards[k], k));
    ShardPlacedAgain(cfg, s, k, DeclareReady(s.shards[k], k));
    ReadyMsgsAre(s.shards[k], k, cfg.shards);
  }

  // ---------- Shipping ----------

  /** After shipping, a shard still holds what it did not ship, and so does its queue. */
  lemma ShipKeeps(cfg: Config, issued: seq<PartitionMap>, ledger: Accounts, sh: Shard, k: ShardId)
    requires ShardPlaced(cfg, issued, ledger, sh, k) && sh.stage.AwaitingReady?
    requires sh.maps != [] && |sh.maps| == sh.round + 1 && |sh.maps| <= |issued| && sh.maps == issued[..|sh.maps|]
    requires sh.pmap == Overlay(issued, sh.round) && InRange(cfg, issued[sh.round])
    ensures ShardPlaced(cfg, issued, ledger, Ship(cfg, sh, k), k)
  {
    KeptAtHome(cfg, issued, sh, k);
    ShippedKeeps(cfg, issued, ledger, sh, Ship(cfg, sh, k), k);
  }

  lemma ShippedKeeps(cfg: Config, issued: seq<PartitionMap>, ledger: Accounts, sh: Shard, t: Shard, k: ShardId)
    requires ShardPlaced(cfg, issued, ledger, sh, k) && sh.stage.AwaitingReady? && sh.round < |issued|
    requires t == sh.(queue := t.queue, stage := Collecting)
    requires AllAtHome(SiteAt(cfg, issued, sh.round + 1, k), t.queue)
    ensures ShardPlaced(cfg, issued, ledger, t, k)
  {
    forall a | Holds(cfg, issued, t, k, a) ensures Same(t.accounts, ledger, a) {
      assert Holds(cfg, issued, sh, k, a);
    }
  }

  lemma ShippedShard(cfg: Config, s: System, k: ShardId)
    requires InRounds(cfg, s) && Placed(cfg, s) && Enabled(cfg, s, ShipStep(k))
    ensures ShardPlaced(cfg, s.sup.issued, s.hist.ledger, Ship(cfg, s.shards[k], k), k)
  {
    KnownShard(cfg, s.sup.issued, s.shards, k);
    PlacedShard(cfg, s, k);
    assert s.sup.issued[s.shards[k].round] in s.sup.issued;
    ShipKeeps(cfg, s.sup.issued, s.hist.ledger, s.shards[k], k);
  }

  lemma ShippedPackets(cfg: Config, s: System, k: ShardId)
    requires InRounds(cfg, s) && Placed(cfg, s) && Enabled(cfg, s, ShipStep(k))
    ensures PacketsPlaced(cfg, s.shards[k := Ship(cfg, s.shards[k], k)], s.sup.issued, s.hist.ledger,
                          s.net + Shipments(Parcels(cfg, s.shards[k], k), k, cfg.shards))
  {
    var sh, issued, ledger := s.shards[k], s.sup.issued, s.hist.ledger;
    var after, parcels := s.shards[k := Ship(cfg, sh, k)], Parcels(cfg, sh, k);
    KnownShard(cfg, s.sup.issued, s.shards, k);
    PlacedShard(cfg, s, k);
    ShipmentsAre(parcels, k, cfg.shards);
    forall pkt | pkt in s.net + Shipments(parcels, k, cfg.shards)
      ensures PacketPlaced(cfg, after, issued, ledger, pkt)
    {
      if pkt in s.net {
        OldPacketAfterShip(cfg, s, k, pkt, Ship(cfg, sh, k));
      } else {
        BarrierMeans(cfg, s, k, pkt.to);
        ParcelIsOk(cfg, issued, ledger, sh, k, pkt.to);
      }
    }
  }

  /** No injection and no relay to the shipping shard is in flight any more. */
  lemma OldPacketAfterShip(cfg: Config, s: System, k: ShardId, pkt: Packet, sh: Shard)
    requires InRounds(cfg, s) && Placed(cfg, s) && Enabled(cfg, s, ShipStep(k))
    requires pkt in s.net && sh.round == s.shards[k].round
    ensures PacketPlaced(cfg, s.shards[k := sh], s.sup.issued, s.hist.ledger, pkt)
  {
    PlacedPacket(cfg, s, pkt);
    KnownShard(cfg, s.sup.issued, s.shards, k);
    KnownPacket(s.shards, s.sup.issued, s.net, pkt);
    if pkt.Relay? && pkt.to == k {
      assert HeardOrSilent(s, pkt.from, k);
      BarrierMeans(cfg, s, k, pkt.from);
    }
  }

  lemma ShipPlaced(cfg: Config, s: System, k: ShardId)
    requires InRounds(cfg, s) && Placed(cfg, s) && Enabled(cfg, s, ShipStep(k))
    ensures Placed(cfg, Do(cfg, s, ShipStep(k)))
  {
    ShippedShard(cfg, s, k);
    ShippedPackets(cfg, s, k);
    ShardPlacedAgain(cfg, s, k, Ship(cfg, s.shards[k], k));
  }

  // ---------- Opening a partition request ----------

  /** A transaction in a received parcel belongs to the receiver under the new map. */
  lemma ParcelTxAtHome(cfg: Config, issued: seq<PartitionMap>, ledger: Accounts, r: nat, i: ShardId, k: ShardId,
                       parcel: Parcel, tx: Tx)
    requires ParcelOk(cfg, issued, ledger, r, i, k, parcel) && tx in parcel.txs
    ensures !ErrorTx(issued[r], k, tx) && AtHome(SiteAt(cfg, issued, r + 1, k), tx)
  {
    assert Moves(cfg, issued, r, Anchor(tx), i, k);
  }

  lemma MergedTxsAtHome(cfg: Config, issued: seq<PartitionMap>, ledger: Accounts, sh: Shard, k: ShardId,
      order: seq<ShardId>)
    requires sh.round < |issued| && ReceivedOk(cfg, issued, ledger, sh, k)
    requires forall i :: i in order ==> i in sh.received
    ensures forall tx :: tx in MergedTxs(sh.received, order) ==>
      !ErrorTx(issued[sh.round], k, tx) && AtHome(SiteAt(cfg, issued, sh.round + 1, k), tx)
  {
    MergedTxsIn(sh.received, order);
    forall tx | tx in MergedTxs(sh.received, order)
      ensures !ErrorTx(issued[sh.round], k, tx) && AtHome(SiteAt(cfg, issued, sh.round + 1, k), tx)
    {
      var i :| i in order && tx in sh.received[i].txs;
      ParcelTxAtHome(cfg, issued, ledger, sh.round, i, k, sh.received[i], tx);
    }
  }
  /** What was received is current. */
  lemma ReceivedIsCurrent(cfg: Config, s: System, k: ShardId, i: ShardId, a: Addr)
    requires InRounds(cfg, s) && Placed(cfg, s) && k < |s.shards|
    requires i in s.shards[k].received && a in s.shards[k].received[i].accounts
    ensures s.shards[k].round < |s.sup.issued|
    ensures s.shards[k].received[i].accounts[a] == Fetch(s.hist.ledger, a, 0)
    ensures HomeAt(cfg, s.sup.issued, s.shards[k].round, a) != k
    ensures HomeAt(cfg, s.sup.issued, s.shards[k].round + 1, a) == k
  {
    var sh := s.shards[k];
    KnownShard(cfg, s.sup.issued, s.shards, k);
    PlacedShard(cfg, s, k);
    assert ParcelOk(cfg, s.sup.issued, s.hist.ledger, sh.round, i, k, sh.received[i]);
    MovesMeans(cfg, s.sup.issued, sh.round, a);
  }

  /** When collecting is over, every account that comes here was received. */
  lemma MoverIsReceived(cfg: Config, s: System, k: ShardId, a: Addr)
    requires InRounds(cfg, s) && Placed(cfg, s) && k < |s.shards| && s.shards[k].collectOver
    requires s.shards[k].round < |s.sup.issued|
    requires HomeAt(cfg, s.sup.issued, s.shards[k].round, a) != k
    requires HomeAt(cfg, s.sup.issued, s.shards[k].round + 1, a) == k
    ensures exists i :: i in s.shards[k].received && a in s.shards[k].received[i].accounts
  {
    var sh, i := s.shards[k], HomeAt(cfg, s.sup.issued, s.shards[k].round, a);
    PlacedShard(cfg, s, k);
    MovesMeans(cfg, s.sup.issued, sh.round, a);
    OverlayInRange(cfg, s.sup.issued, sh.round);
    AllReceived(cfg, s, k, i);
    assert ParcelOk(cfg, s.sup.issued, s.hist.ledger, sh.round, i, k, sh.received[i]);
  }

  lemma OpenTransferOk(cfg: Config, s: System, k: ShardId, order: seq<ShardId>)
    requires InRounds(cfg, s) && Placed(cfg, s) && Enabled(cfg, s, OpenPartitionStep(k, order))
    ensures TransferOk(cfg, s.sup.issued, s.hist.ledger, OpenPartition(s.shards[k], order), k)
  {
    KnownShard(cfg, s.sup.issued, s.shards, k);
    MergedIsCurrent(cfg, s, k, order);
    forall a ensures MergedRight(cfg, s, k, order, a) {
      MergedIsMovers(cfg, s, k, order, a);
    }
    TransferFrom(cfg, s, k, order);
  }

  /** The merged accounts hold `a` exactly if it comes here. */
  ghost predicate MergedRight(cfg: Config, s: System, k: ShardId, order: seq<ShardId>, a: Addr)
    requires k < |s.shards| && s.shards[k].round < |s.sup.issued|
    requires forall i :: i in order ==> i in s.shards[k].received
  {
    var comes := HomeAt(cfg, s.sup.issued, s.shards[k].round, a) != k
      && HomeAt(cfg, s.sup.issued, s.shards[k].round + 1, a) == k;
    a in MergedAccounts(s.shards[k].received, order) <==> comes
  }

  lemma TransferFrom(cfg: Config, s: System, k: ShardId, order: seq<ShardId>)
    requires k < |s.shards| && s.shards[k].round < |s.sup.issued| && s.shards[k].round < |s.shards[k].maps|
    requires forall i :: i in order ==> i in s.shards[k].received
    requires forall a :: MergedRight(cfg, s, k, order, a)
    requires forall a :: a in MergedAccounts(s.shards[k].received, order) ==>
      MergedAccounts(s.shards[k].received, order)[a] == Fetch(s.hist.ledger, a, 0)
    ensures TransferOk(cfg, s.sup.issued, s.hist.ledger, OpenPartition(s.shards[k], order), k)
  {
    var t := OpenPartition(s.shards[k], order);
    forall a
      ensures a in t.stage.atm.accounts
        <==> HomeAt(cfg, s.sup.issued, t.round, a) != k && HomeAt(cfg, s.sup.issued, t.round + 1, a) == k
    {
      assert MergedRight(cfg, s, k, order, a);
    }
  }

  lemma MergedIsCurrent(cfg: Config, s: System, k: ShardId, order: seq<ShardId>)
    requires InRounds(cfg, s) && Placed(cfg, s) && k < |s.shards|
    requires forall i :: i in order ==> i in s.shards[k].received
    ensures var merged := MergedAccounts(s.shards[k].received, order);
      (forall a :: a in merged <==> exists i :: i in order && a in s.shards[k].received[i].accounts)
      && (forall a :: a in merged ==> merged[a] == Fetch(s.hist.ledger, a, 0))
  {
    var sh := s.shards[k];
    forall i, a | i in order && a in sh.received[i].accounts
      ensures sh.received[i].accounts[a] == Fetch(s.hist.ledger, a, 0)
    {
      ReceivedIsCurrent(cfg, s, k, i, a);
    }
    MergedAccountsIn(sh.received, order, s.hist.ledger);
  }

  lemma MergedIsMovers(cfg: Config, s: System, k: ShardId, order: seq<ShardId>, a: Addr)
    requires InRounds(cfg, s) && Placed(cfg, s) && k < |s.shards| && s.shards[k].collectOver
    requires s.shards[k].round < |s.sup.issued| && forall i :: i in order <==> i in s.shards[k].received
    ensures MergedRight(cfg, s, k, order, a)
  {
    MergedIsCurrent(cfg, s, k, order);
    if a in MergedAccounts(s.shards[k].received, order) {
      var i :| i in order && a in s.shards[k].received[i].accounts;
      ReceivedIsCurrent(cfg, s, k, i, a);
    } else if HomeAt(cfg, s.sup.issued, s.shards[k].round, a) != k
           && HomeAt(cfg, s.sup.issued, s.shards[k].round + 1, a) == k {
      MoverIsReceived(cfg, s, k, a);
    }
  }

  lemma OpenPartitionShard(cfg: Config, issued: seq<PartitionMap>, ledger: Accounts, sh: Shard, k: ShardId,
      order: seq<ShardId>)
    requires ShardPlaced(cfg, issued, ledger, sh, k) && sh.stage.Collecting?
    requires sh.round < |sh.maps| && forall i :: i in order ==> i in sh.received
    requires TransferOk(cfg, issued, ledger, OpenPartition(sh, order), k)
    ensures ShardPlaced(cfg, issued, ledger, OpenPartition(sh, order), k)
  {
    MergedTxsAtHome(cfg, issued, ledger, sh, k, order);
    AccountsStay(cfg, issued, ledger, sh, OpenPartition(sh, order), k);
  }

  lemma OpenPartitionPlaced(cfg: Config, s: System, k: ShardId, order: seq<ShardId>)
    requires InRounds(cfg, s) && Placed(cfg, s) && Enabled(cfg, s, OpenPartitionStep(k, order))
    ensures Placed(cfg, Do(cfg, s, OpenPartitionStep(k, order)))
  {
    PlacedShard(cfg, s, k);
    OpenTransferOk(cfg, s, k, order);
    OpenPartitionShard(cfg, s.sup.issued, s.hist.ledger, s.shards[k], k, order);
    PacketsStay(cfg, s.shards, s.sup.issued, s.hist.ledger, s.net, k, OpenPartition(s.shards[k], order));
    ShardPlacedAgain(cfg, s, k, OpenPartition(s.shards[k], order));
  }

  // ---------- Committing a block ----------

  /** While shard `k` has a block open, any shard still waiting for a parcel is one round behind. */
  lemma OneRoundBehind(cfg: Config, s: System, k: ShardId, i: ShardId, j: ShardId)
    requires InRounds(cfg, s) && k < |s.shards| && i < |s.shards| && j < |s.shards|
    requires s.shards[k].stage.BlockOpen?
    requires Shipped(s.shards[i]) == s.shards[j].round + 1
    ensures s.shards[k].round == s.shards[j].round + 1
  {
    KnownPair(s.shards, s.net, j, k);
    KnownPair(s.shards, s.net, k, i);
  }

  /** The ledger changes only at accounts whose home under the first `r` maps is `k`. */
  ghost predicate ChangesOnlyAt(cfg: Config, issued: seq<PartitionMap>, r: nat, k: ShardId, led: Accounts,
      led': Accounts) {
    r <= |issued| && forall a :: HomeAt(cfg, issued, r, a) != k ==> Same(led', led, a)
  }

  /** A shard keeps holding its accounts when the ledger only changes at another site's accounts. */
  lemma HeldStays(cfg: Config, issued: seq<PartitionMap>, led: Accounts, led': Accounts, y: Shard, j: ShardId,
      k: ShardId)
    requires Shipped(y) <= |issued| && HeldOk(cfg, issued, led, y, j) && j != k
    requires ChangesOnlyAt(cfg, issued, Shipped(y), k, led, led')
    ensures HeldOk(cfg, issued, led', y, j)
  {
    forall a | Holds(cfg, issued, y, j, a) ensures Same(y.accounts, led', a) {
      assert HomeAt(cfg, issued, Shipped(y), a) == j;
    }
  }

  /** The ledger after a block of `k`, and that it only changes at `k`'s accounts. */
  lemma BlockLedger(cfg: Config, s: System, k: ShardId)
    requires InRounds(cfg, s) && Placed(cfg, s) && Enabled(cfg, s, CommitBlockStep(k))
    ensures var site, body := SiteOf(cfg, s.shards[k], k), s.shards[k].stage.body;
      AllAtHome(site, body)
      && AgreeAt(site, s.shards[k].accounts, s.hist.ledger)
      && AgreeAt(site, Execute(site, s.shards[k].accounts, body), Execute(site, s.hist.ledger, body))
      && SomeStarve(site, s.shards[k].accounts, body) == SomeStarve(site, s.hist.ledger, body)
      && ChangesOnlyAt(cfg, s.sup.issued, s.shards[k].round, k, s.hist.ledger, Execute(site, s.hist.ledger, body))
  {
    KnownShard(cfg, s.sup.issued, s.shards, k);
    PlacedShard(cfg, s, k);
    BlockAgrees(cfg, s.sup.issued, s.hist.ledger, s.shards[k], k);
  }

  lemma BlockAgrees(cfg: Config, issued: seq<PartitionMap>, ledger: Accounts, sh: Shard, k: ShardId)
    requires ShardPlaced(cfg, issued, ledger, sh, k) && sh.stage.BlockOpen? && sh.round <= |issued|
    requires sh.pmap == Overlay(issued, sh.round)
    ensures var site, body := SiteOf(cfg, sh, k), sh.stage.body;
      AllAtHome(site, body) && AgreeAt(site, sh.accounts, ledger)
      && AgreeAt(site, Execute(site, sh.accounts, body), Execute(site, ledger, body))
      && SomeStarve(site, sh.accounts, body) == SomeStarve(site, ledger, body)
      && ChangesOnlyAt(cfg, issued, sh.round, k, ledger, Execute(site, ledger, body))
  {
    var site := SiteOf(cfg, sh, k);
    forall a | Local(site, a) ensures Same(sh.accounts, ledger, a) {
      assert Holds(cfg, issued, sh, k, a);
    }
    ExecuteAgrees(site, sh.accounts, ledger, sh.stage.body);
  }

  /** A parcel whose accounts the ledger change does not touch stays right. */
  lemma ParcelStays(cfg: Config, issued: seq<PartitionMap>, led: Accounts, led': Accounts, r: nat,
                    i: ShardId, k: ShardId, parcel: Parcel)
    requires ParcelOk(cfg, issued, led, r, i, k, parcel)
    requires forall a :: Moves(cfg, issued, r, a, i, k) ==> Fetch(led', a, 0) == Fetch(led, a, 0)
    ensures ParcelOk(cfg, issued, led', r, i, k, parcel)
  {
  }

  lemma BlockParcel(cfg: Config, s: System, k: ShardId, i: ShardId, j: ShardId, parcel: Parcel, led': Accounts)
    requires InRounds(cfg, s) && k < |s.shards| && i < |s.shards| && j < |s.shards| && i != j
    requires s.shards[k].stage.BlockOpen? && Shipped(s.shards[i]) == s.shards[j].round + 1
    requires ParcelOk(cfg, s.sup.issued, s.hist.ledger, s.shards[j].round, i, j, parcel)
    requires ChangesOnlyAt(cfg, s.sup.issued, s.shards[k].round, k, s.hist.ledger, led')
    ensures ParcelOk(cfg, s.sup.issued, led', s.shards[j].round, i, j, parcel)
  {
    OneRoundBehind(cfg, s, k, i, j);
    ParcelElsewhere(cfg, s.sup.issued, s.hist.ledger, led', s.shards[j].round, i, j, parcel, k);
  }

  lemma ParcelElsewhere(cfg: Config, issued: seq<PartitionMap>, led: Accounts, led': Accounts, r: nat,
                        i: ShardId, j: ShardId, parcel: Parcel, k: ShardId)
    requires ParcelOk(cfg, issued, led, r, i, j, parcel) && j != k
    requires ChangesOnlyAt(cfg, issued, r + 1, k, led, led')
    ensures ParcelOk(cfg, issued, led', r, i, j, parcel)
  {
    forall a | Moves(cfg, issued, r, a, i, j) ensures Fetch(led', a, 0) == Fetch(led, a, 0) {
      MovedTo(cfg, issued, r, a, i, j);
      assert Same(led', led, a);
    }
    ParcelStays(cfg, issued, led, led', r, i, j, parcel);
  }

  /** Shards other than `k` after `k` committed a block. */
  lemma BlockOthers(cfg: Config, s: System, k: ShardId, j: ShardId, led': Accounts)
    requires InRounds(cfg, s) && Placed(cfg, s) && k < |s.shards| && j < |s.shards| && j != k
    requires s.shards[k].stage.BlockOpen?
    requires ChangesOnlyAt(cfg, s.sup.issued, s.shards[k].round, k, s.hist.ledger, led')
    ensures Shipped(s.shards[j]) <= |s.sup.issued| && HeldOk(cfg, s.sup.issued, led', s.shards[j], j)
  {
    KnownShard(cfg, s.sup.issued, s.shards, k);
    KnownPair(s.shards, s.net, k, j);
    PlacedShard(cfg, s, j);
    HeldStays(cfg, s.sup.issued, s.hist.ledger, led', s.shards[j], j, k);
  }

  lemma BlockReceived(cfg: Config, s: System, k: ShardId, j: ShardId, led': Accounts)
    requires InRounds(cfg, s) && Placed(cfg, s) && k < |s.shards| && j < |s.shards|
    requires s.shards[k].stage.BlockOpen?
    requires ChangesOnlyAt(cfg, s.sup.issued, s.shards[k].round, k, s.hist.ledger, led')
    ensures ReceivedOk(cfg, s.sup.issued, led', s.shards[j], j)
  {
    var y := s.shards[j];
    KnownShard(cfg, s.sup.issued, s.shards, j);
    PlacedShard(cfg, s, j);
    forall i | i in y.received ensures ParcelOk(cfg, s.sup.issued, led', y.round, i, j, y.received[i]) {
      KnownPair(s.shards, s.net, i, j);
      BlockParcel(cfg, s, k, i, j, y.received[i], led');
    }
  }

  lemma TransferStays(cfg: Config, issued: seq<PartitionMap>, led: Accounts, led': Accounts, y: Shard, j: ShardId,
      k: ShardId)
    requires y.round < |issued| && TransferOk(cfg, issued, led, y, j) && j != k
    requires ChangesOnlyAt(cfg, issued, y.round + 1, k, led, led')
    ensures TransferOk(cfg, issued, led', y, j)
  {
    if y.stage.PartitionOpen? {
      forall a | a in y.stage.atm.accounts ensures Fetch(led', a, 0) == Fetch(led, a, 0) {
        assert HomeAt(cfg, issued, y.round + 1, a) == j;
        assert Same(led', led, a);
      }
    }
  }

  lemma BlockTransfer(cfg: Config, s: System, k: ShardId, j: ShardId, led': Accounts)
    requires InRounds(cfg, s) && Placed(cfg, s) && k < |s.shards| && j < |s.shards|
    requires s.shards[k].stage.BlockOpen? && s.shards[j].stage.PartitionOpen?
    requires ChangesOnlyAt(cfg, s.sup.issued, s.shards[k].round, k, s.hist.ledger, led')
    ensures s.shards[j].round < |s.sup.issued| && TransferOk(cfg, s.sup.issued, led', s.shards[j], j)
  {
    KnownShard(cfg, s.sup.issued, s.shards, k);
    OneRoundBehind(cfg, s, k, j, j);
    PlacedShard(cfg, s, j);
    TransferStays(cfg, s.sup.issued, s.hist.ledger, led', s.shards[j], j, k);
  }

  /** The committing shard itself. */
  lemma BlockHeld(cfg: Config, s: System, k: ShardId, t: Shard, led': Accounts)
    requires InRounds(cfg, s) && Placed(cfg, s) && Enabled(cfg, s, CommitBlockStep(k))
    requires t == CommitBlock(cfg, s.shards[k], k, s.shards[k].stage.body)
    requires led' == Execute(SiteOf(cfg, s.shards[k], k), s.hist.ledger, s.shards[k].stage.body)
    ensures Shipped(t) <= |s.sup.issued| && HeldOk(cfg, s.sup.issued, led', t, k)
  {
    KnownShard(cfg, s.sup.issued, s.shards, k);
    BlockLedger(cfg, s, k);
    forall a | Holds(cfg, s.sup.issued, t, k, a) ensures Same(t.accounts, led', a) {
      assert Local(SiteOf(cfg, s.shards[k], k), a);
    }
  }

  lemma BlockOwner(cfg: Config, s: System, k: ShardId, t: Shard, led': Accounts)
    requires InRounds(cfg, s) && Placed(cfg, s) && Enabled(cfg, s, CommitBlockStep(k))
    requires t == CommitBlock(cfg, s.shards[k], k, s.shards[k].stage.body)
    requires led' == Execute(SiteOf(cfg, s.shards[k], k), s.hist.ledger, s.shards[k].stage.body)
    ensures ShardPlaced(cfg, s.sup.issued, led', t, k)
  {
    BlockHeld(cfg, s, k, t, led');
    BlockLedger(cfg, s, k);
    BlockReceived(cfg, s, k, k, led');
    PlacedShard(cfg, s, k);
  }

  lemma BlockShards(cfg: Config, s: System, k: ShardId)
    requires InRounds(cfg, s) && Placed(cfg, s) && Enabled(cfg, s, CommitBlockStep(k))
    ensures var t := Do(cfg, s, CommitBlockStep(k));
      ShardsPlaced(cfg, t.shards, s.sup.issued, t.hist.ledger)
  {
    var t := Do(cfg, s, CommitBlockStep(k));
    var led' := t.hist.ledger;
    BlockLedger(cfg, s, k);
    forall j: nat | j < |t.shards| ensures PlacedAt(cfg, t.shards, s.sup.issued, led', j) {
      if j == k {
        BlockOwner(cfg, s, k, t.shards[k], led');
      } else {
        PlacedShard(cfg, s, j);
        BlockOthers(cfg, s, k, j, led');
        BlockReceived(cfg, s, k, j, led');
        if s.shards[j].stage.PartitionOpen? {
          BlockTransfer(cfg, s, k, j, led');
        }
      }
    }
  }

  lemma NoBrokerRelays(cfg: Config, pmap: PartitionMap, body: seq<Tx>, k: ShardId, site: Site)
    requires AllAtHome(site, body)
    ensures forall tx :: tx in RelayTxs(cfg, pmap, body, k) ==> AtHome(Site(cfg, pmap, k), tx)
  {
    RelayTxsAre(cfg, pmap, body, k);
    forall tx | tx in RelayTxs(cfg, pmap, body, k) ensures !tx.hasBroker {
      var orig :| orig in body && tx == Mark(orig);
      assert AtHome(site, orig);
    }
  }

  /** A relay message of a block goes to a shard that has shipped what the sender's map asks for. */
  lemma NewRelayIs(cfg: Config, s: System, k: ShardId, pkt: Packet)
    requires InRounds(cfg, s) && Enabled(cfg, s, CommitBlockStep(k))
    requires pkt in RelayMsgs(cfg, s.shards[k], k, s.shards[k].stage.body, cfg.shards)
    ensures pkt.Relay? && pkt.to < |s.shards| && pkt.to != k && Shipped(s.shards[pkt.to]) == s.shards[k].round
    ensures pkt.txs == RelayTxs(cfg, s.shards[k].pmap, s.shards[k].stage.body, pkt.to)
  {
    RelayMsgsAre(cfg, s.shards[k], k, s.shards[k].stage.body, cfg.shards);
    KnownPair(s.shards, s.net, k, pkt.to);
  }

  /** The relays of a block go to the recipients' homes. */
  lemma NewRelayPlaced(cfg: Config, s: System, k: ShardId, pkt: Packet)
    requires InRounds(cfg, s) && Placed(cfg, s) && Enabled(cfg, s, CommitBlockStep(k))
    requires pkt in RelayMsgs(cfg, s.shards[k], k, s.shards[k].stage.body, cfg.shards)
    ensures pkt.Relay? && pkt.to < |s.shards| && pkt.to != k && Shipped(s.shards[pkt.to]) <= |s.sup.issued|
    ensures AllAtHome(SiteAt(cfg, s.sup.issued, Shipped(s.shards[pkt.to]), pkt.to), pkt.txs)
  {
    NewRelayIs(cfg, s, k, pkt);
    BlockLedger(cfg, s, k);
    KnownShard(cfg, s.sup.issued, s.shards, k);
    NoBrokerRelays(cfg, s.shards[k].pmap, s.shards[k].stage.body, pkt.to, SiteOf(cfg, s.shards[k], k));
  }

  lemma BlockOldPacket(cfg: Config, s: System, k: ShardId, pkt: Packet, sh: Shard, led': Accounts)
    requires InRounds(cfg, s) && Placed(cfg, s) && k < |s.shards| && s.shards[k].stage.BlockOpen?
    requires sh.round == s.shards[k].round && Shipped(sh) == Shipped(s.shards[k])
    requires ChangesOnlyAt(cfg, s.sup.issued, s.shards[k].round, k, s.hist.ledger, led')
    requires pkt in s.net
    ensures PacketPlaced(cfg, s.shards[k := sh], s.sup.issued, led', pkt)
  {
    PlacedPacket(cfg, s, pkt);
    if pkt.Shipment? {
      KnownPacket(s.shards, s.sup.issued, s.net, pkt);
      KnownPair(s.shards, s.net, pkt.from, pkt.to);
      CountIn(s.net, pkt);
      BlockParcel(cfg, s, k, pkt.from, pkt.to, pkt.parcel, led');
    }
  }

  lemma BlockPackets(cfg: Config, s: System, k: ShardId)
    requires InRounds(cfg, s) && Placed(cfg, s) && Enabled(cfg, s, CommitBlockStep(k))
    ensures var t := Do(cfg, s, CommitBlockStep(k));
      PacketsPlaced(cfg, t.shards, s.sup.issued, t.hist.ledger, t.net)
  {
    var t := Do(cfg, s, CommitBlockStep(k));
    BlockLedger(cfg, s, k);
    forall pkt | pkt in t.net ensures PacketPlaced(cfg, t.shards, s.sup.issued, t.hist.ledger, pkt) {
      if pkt in s.net {
        BlockOldPacket(cfg, s, k, pkt, t.shards[k], t.hist.ledger);
      } else if pkt in RelayMsgs(cfg, s.shards[k], k, s.shards[k].stage.body, cfg.shards) {
        NewRelayPlaced(cfg, s, k, pkt);
      }
    }
  }

  lemma CommitBlockPlaced(cfg: Config, s: System, k: ShardId)
    requires InRounds(cfg, s) && Placed(cfg, s) && Enabled(cfg, s, CommitBlockStep(k))
    ensures Placed(cfg, Do(cfg, s, CommitBlockStep(k)))
  {
    BlockShards(cfg, s, k);
    BlockPackets(cfg, s, k);
  }

  // ---------- Committing a partition ----------

  /** Adding accounts with their current state changes no lookup of the ledger. */
  lemma AddKeepsFetch(site: Site, led: Accounts, added: Accounts)
    requires forall a :: a in added ==> added[a] == Fetch(led, a, 0)
    ensures forall a :: Fetch(AddAccounts(site, led, added), a, 0) == Fetch(led, a, 0)
    ensures forall a :: !(a in added && Local(site, a)) ==> Same(AddAccounts(site, led, added), led, a)
  {
  }

  lemma ParcelKept(cfg: Config, issued: seq<PartitionMap>, led: Accounts, led': Accounts, r: nat,
                   i: ShardId, k: ShardId, parcel: Parcel)
    requires ParcelOk(cfg, issued, led, r, i, k, parcel)
    requires forall a :: Fetch(led', a, 0) == Fetch(led, a, 0)
    ensures ParcelOk(cfg, issued, led', r, i, k, parcel)
  {
    ParcelStays(cfg, issued, led, led', r, i, k, parcel);
  }

  ghost predicate PartitionLedger(cfg: Config, s: System, k: ShardId, led': Accounts)
    requires k < |s.shards| && s.shards[k].stage.PartitionOpen?
  {
    var sh := s.shards[k];
    led' == AddAccounts(Site(cfg, sh.pmap + sh.stage.atm.pmap, k), s.hist.ledger, sh.stage.atm.accounts)
    && (forall a :: Fetch(led', a, 0) == Fetch(s.hist.ledger, a, 0))
  }

  lemma TransferLedger(cfg: Config, issued: seq<PartitionMap>, led: Accounts, sh: Shard, k: ShardId)
    requires sh.round < |issued| && sh.stage.PartitionOpen? && TransferOk(cfg, issued, led, sh, k)
    ensures var led' := AddAccounts(SiteAt(cfg, issued, sh.round + 1, k), led, sh.stage.atm.accounts);
      ChangesOnlyAt(cfg, issued, sh.round + 1, k, led, led') && forall a :: Fetch(led', a, 0) == Fetch(led, a, 0)
  {
    AddKeepsFetch(SiteAt(cfg, issued, sh.round + 1, k), led, sh.stage.atm.accounts);
  }

  lemma OverlayNext(issued: seq<PartitionMap>, r: nat, pmap: PartitionMap, m: PartitionMap)
    requires r < |issued| && pmap == Overlay(issued, r) && m == issued[r]
    ensures pmap + m == Overlay(issued, r + 1)
  {
  }

  lemma PartitionMapIs(cfg: Config, s: System, k: ShardId)
    requires InRounds(cfg, s) && k < |s.shards| && s.shards[k].stage.PartitionOpen?
    ensures s.shards[k].round < |s.sup.issued|
    ensures s.shards[k].pmap + s.shards[k].stage.atm.pmap == Overlay(s.sup.issued, s.shards[k].round + 1)
  {
    KnownShard(cfg, s.sup.issued, s.shards, k);
    OverlayNext(s.sup.issued, s.shards[k].round, s.shards[k].pmap, s.shards[k].stage.atm.pmap);
  }

  lemma PartitionLedgerIs(cfg: Config, s: System, k: ShardId)
    requires InRounds(cfg, s) && Placed(cfg, s) && Enabled(cfg, s, CommitPartitionStep(k))
    ensures s.shards[k].round < |s.sup.issued|
    ensures s.shards[k].pmap + s.shards[k].stage.atm.pmap == Overlay(s.sup.issued, s.shards[k].round + 1)
    ensures var led' := Do(cfg, s, CommitPartitionStep(k)).hist.ledger;
      PartitionLedger(cfg, s, k, led')
      && ChangesOnlyAt(cfg, s.sup.issued, s.shards[k].round + 1, k, s.hist.ledger, led')
  {
    PartitionMapIs(cfg, s, k);
    PlacedShard(cfg, s, k);
    TransferLedger(cfg, s.sup.issued, s.hist.ledger, s.shards[k], k);
  }

  /** The finishing shard holds every account homed here under the new map. */
  lemma HeldAfterFinish(cfg: Config, issued: seq<PartitionMap>, led: Accounts, sh: Shard, t: Shard, k: ShardId,
      site: Site)
    requires sh.round < |issued| && Shipped(sh) == sh.round + 1
    requires HeldOk(cfg, issued, led, sh, k) && sh.stage.PartitionOpen? && TransferOk(cfg, issued, led, sh, k)
    requires site == SiteAt(cfg, issued, sh.round + 1, k)
    requires t.round == Shipped(t) == sh.round + 1
    requires t.accounts == AddAccounts(site, sh.accounts, sh.stage.atm.accounts)
    ensures HeldOk(cfg, issued, AddAccounts(site, led, sh.stage.atm.accounts), t, k)
  {
    var led' := AddAccounts(site, led, sh.stage.atm.accounts);
    forall a | Holds(cfg, issued, t, k, a) ensures Same(t.accounts, led', a) {
      assert Local(site, a);
      if a !in sh.stage.atm.accounts {
        assert Holds(cfg, issued, sh, k, a);
      }
    }
  }

  lemma FinishOwner(cfg: Config, s: System, k: ShardId, t: Shard, led': Accounts)
    requires InRounds(cfg, s) && Placed(cfg, s) && Enabled(cfg, s, CommitPartitionStep(k))
    requires t == CommitPartition(cfg, s.shards[k], k, s.shards[k].stage.atm)
    requires led' == Do(cfg, s, CommitPartitionStep(k)).hist.ledger
    ensures Shipped(t) <= |s.sup.issued| && HeldOk(cfg, s.sup.issued, led', t, k)
  {
    var sh := s.shards[k];
    KnownShard(cfg, s.sup.issued, s.shards, k);
    PlacedShard(cfg, s, k);
    PartitionLedgerIs(cfg, s, k);
    HeldAfterFinish(cfg, s.sup.issued, s.hist.ledger, sh, t, k, Site(cfg, sh.pmap + sh.stage.atm.pmap, k));
  }

  lemma FinishedIsPlaced(cfg: Config, issued: seq<PartitionMap>, led: Accounts, led': Accounts, sh: Shard, t: Shard,
      k: ShardId)
    requires ShardPlaced(cfg, issued, led, sh, k) && sh.stage.PartitionOpen?
    requires t.queue == sh.queue && t.stage.Idle? && t.received == map[] && t.round == sh.round + 1 <= |issued|
    requires HeldOk(cfg, issued, led', t, k)
    ensures ShardPlaced(cfg, issued, led', t, k)
  {
  }

  lemma FinishQueue(cfg: Config, s: System, k: ShardId, t: Shard, led': Accounts)
    requires InRounds(cfg, s) && Placed(cfg, s) && Enabled(cfg, s, CommitPartitionStep(k))
    requires t == CommitPartition(cfg, s.shards[k], k, s.shards[k].stage.atm)
    requires led' == Do(cfg, s, CommitPartitionStep(k)).hist.ledger
    ensures ShardPlaced(cfg, s.sup.issued, led', t, k)
  {
    KnownShard(cfg, s.sup.issued, s.shards, k);
    PlacedShard(cfg, s, k);
    FinishOwner(cfg, s, k, t, led');
    FinishedIsPlaced(cfg, s.sup.issued, s.hist.ledger, led', s.shards[k], t, k);
  }

  lemma ReceivedKept(cfg: Config, issued: seq<PartitionMap>, led: Accounts, led': Accounts, y: Shard, j: ShardId)
    requires Shipped(y) <= |issued| && ReceivedOk(cfg, issued, led, y, j)
    requires y.stage.PartitionOpen? ==> TransferOk(cfg, issued, led, y, j)
    requires forall a :: Fetch(led', a, 0) == Fetch(led, a, 0)
    ensures ReceivedOk(cfg, issued, led', y, j)
    ensures y.stage.PartitionOpen? ==> TransferOk(cfg, issued, led', y, j)
  {
    forall i | i in y.received ensures ParcelOk(cfg, issued, led', y.round, i, j, y.received[i]) {
      ParcelKept(cfg, issued, led, led', y.round, i, j, y.received[i]);
    }
  }

  lemma OthersShipped(cfg: Config, s: System, k: ShardId, j: ShardId)
    requires InRounds(cfg, s) && k < |s.shards| && s.shards[k].stage.PartitionOpen? && j < |s.shards| && j != k
    ensures Shipped(s.shards[j]) == s.shards[k].round + 1
  {
    KnownShard(cfg, s.sup.issued, s.shards, k);
    CollectedMeans(cfg, s, k, j);
  }

  /** Whoever shipped the round keeps what it holds, and what it has received stays current. */
  lemma OtherStays(cfg: Config, issued: seq<PartitionMap>, led: Accounts, led': Accounts, y: Shard, j: ShardId,
                   k: ShardId)
    requires ShardPlaced(cfg, issued, led, y, j) && j != k && ChangesOnlyAt(cfg, issued, Shipped(y), k, led, led')
    requires forall a :: Fetch(led', a, 0) == Fetch(led, a, 0)
    ensures ShardPlaced(cfg, issued, led', y, j)
  {
    ReceivedKept(cfg, issued, led, led', y, j);
    HeldStays(cfg, issued, led, led', y, j, k);
  }

  lemma FinishOthers(cfg: Config, s: System, k: ShardId, j: ShardId, led': Accounts)
    requires InRounds(cfg, s) && Placed(cfg, s) && Enabled(cfg, s, CommitPartitionStep(k))
    requires j < |s.shards| && j != k
    requires led' == Do(cfg, s, CommitPartitionStep(k)).hist.ledger
    ensures ShardPlaced(cfg, s.sup.issued, led', s.shards[j], j)
  {
    PlacedShard(cfg, s, j);
    PartitionLedgerIs(cfg, s, k);
    OthersShipped(cfg, s, k, j);
    OtherStays(cfg, s.sup.issued, s.hist.ledger, led', s.shards[j], j, k);
  }

  lemma FinishOldPacket(cfg: Config, s: System, k: ShardId, pkt: Packet, t: Shard, led': Accounts)
    requires InRounds(cfg, s) && Placed(cfg, s) && Enabled(cfg, s, CommitPartitionStep(k))
    requires t == CommitPartition(cfg, s.shards[k], k, s.shards[k].stage.atm)
    requires led' == Do(cfg, s, CommitPartitionStep(k)).hist.ledger
    requires pkt in s.net
    ensures PacketPlaced(cfg, s.shards[k := t], s.sup.issued, led', pkt)
  {
    PlacedPacket(cfg, s, pkt);
    KnownShard(cfg, s.sup.issued, s.shards, k);
    PartitionLedgerIs(cfg, s, k);
    if pkt.Shipment? {
      KnownPacket(s.shards, s.sup.issued, s.net, pkt);
      if pkt.to == k {
        CollectedMeans(cfg, s, k, pkt.from);
        CountIn(s.net, pkt);
      } else {
        ParcelKept(cfg, s.sup.issued, s.hist.ledger, led', s.shards[pkt.to].round, pkt.from, pkt.to, pkt.parcel);
      }
    }
  }

  lemma CommitPartitionPlaced(cfg: Config, s: System, k: ShardId)
    requires InRounds(cfg, s) && Placed(cfg, s) && Enabled(cfg, s, CommitPartitionStep(k))
    ensures Placed(cfg, Do(cfg, s, CommitPartitionStep(k)))
  {
    var t := Do(cfg, s, CommitPartitionStep(k));
    forall j: nat | j < |t.shards| ensures PlacedAt(cfg, t.shards, s.sup.issued, t.hist.ledger, j) {
      if j == k {
        FinishQueue(cfg, s, k, t.shards[k], t.hist.ledger);
      } else {
        FinishOthers(cfg, s, k, j, t.hist.ledger);
      }
    }
    forall pkt | pkt in t.net ensures PacketPlaced(cfg, t.shards, s.sup.issued, t.hist.ledger, pkt) {
      FinishOldPacket(cfg, s, k, pkt, t.shards[k], t.hist.ledger);
    }
  }

  lemma StepPlaced(cfg: Config, s: System, step: Step)
    requires InRounds(cfg, s) && Placed(cfg, s) && Enabled(cfg, s, step)
    ensures Placed(cfg, Do(cfg, s, step))
  {
    match step
    case InjectStep(k, txs) => InjectPlaced(cfg, s, k, txs);
    case IssueMapStep(m) => IssueMapPlaced(cfg, s, m);
    case DeliverStep(p) => DeliverPlaced(cfg, s, p);
    case OpenBlockStep(k, size) => OpenBlockPlaced(cfg, s, k, size);
    case CommitBlockStep(k) => CommitBlockPlaced(cfg, s, k);
    case DeclareReadyStep(k) => DeclareReadyPlaced(cfg, s, k);
    case ShipStep(k) => ShipPlaced(cfg, s, k);
    case OpenPartitionStep(k, order) => OpenPartitionPlaced(cfg, s, k, order);
    case CommitPartitionStep(k) => CommitPartitionPlaced(cfg, s, k);
  }
}
