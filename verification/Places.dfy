/**
 Where transactions and accounts are: every queued transaction sits at the home of the
 address that placed it, and every account state is held by exactly the shard (or parcel)
 that is responsible for it.
 */
module Places {
  import opened Ledger
  import opened Execution
  import opened Shards
  import opened Protocol
  import opened Rounds

  /** The home of `a` under the first `r` partition maps. */
  function HomeAt(cfg: Config, issued: seq<PartitionMap>, r: nat, a: Addr): ShardId
    requires r <= |issued|
  {
    HomeOf(cfg, Overlay(issued, r), a)
  }

  function SiteAt(cfg: Config, issued: seq<PartitionMap>, r: nat, k: ShardId): Site
    requires r <= |issued|
  {
    Site(cfg, Overlay(issued, r), k)
  }

  /** Map number `r` moves `a` from shard `i` to shard `k`. */
  predicate Moves(cfg: Config, issued: seq<PartitionMap>, r: nat, a: Addr, i: ShardId, k: ShardId)
    requires r < |issued|
  {
    a in issued[r] && issued[r][a] == k && i != k && HomeAt(cfg, issued, r, a) == i
  }

  lemma MovesMeans(cfg: Config, issued: seq<PartitionMap>, r: nat, a: Addr)
    requires r < |issued|
    ensures var i, k := HomeAt(cfg, issued, r, a), HomeAt(cfg, issued, r + 1, a);
      (i != k <==> Moves(cfg, issued, r, a, i, k))
      && forall j, l :: Moves(cfg, issued, r, a, j, l) ==> j == i && l == k
  {
  }

  lemma MovedTo(cfg: Config, issued: seq<PartitionMap>, r: nat, a: Addr, i: ShardId, k: ShardId)
    requires r < |issued| && Moves(cfg, issued, r, a, i, k)
    ensures HomeAt(cfg, issued, r, a) == i && HomeAt(cfg, issued, r + 1, a) == k
  {
  }

  /** The parcel carries exactly the accounts that map `r` moves from `i` to `k`, with their
      current state, and transactions placed by them. */
  ghost predicate ParcelOk(cfg: Config, issued: seq<PartitionMap>, ledger: Accounts, r: nat,
                           i: ShardId, k: ShardId, parcel: Parcel)
  {
    && r < |issued|
    && (forall a :: a in parcel.accounts <==> Moves(cfg, issued, r, a, i, k))
    && (forall a :: a in parcel.accounts ==> parcel.accounts[a] == Fetch(ledger, a, 0))
    && (forall tx :: tx in parcel.txs ==> !tx.hasBroker && Anchor(tx) in parcel.accounts)
  }

  /** Shard `k` is responsible for `a`: it is the home, and has not shipped `a` away. */
  predicate Holds(cfg: Config, issued: seq<PartitionMap>, s: Shard, k: ShardId, a: Addr)
    requires Shipped(s) <= |issued|
  {
    HomeAt(cfg, issued, s.round, a) == k && HomeAt(cfg, issued, Shipped(s), a) == k
  }

  ghost predicate HeldOk(cfg: Config, issued: seq<PartitionMap>, ledger: Accounts, s: Shard, k: ShardId)
    requires Shipped(s) <= |issued|
  {
    forall a :: Holds(cfg, issued, s, k, a) ==> Same(s.accounts, ledger, a)
  }

  ghost predicate ReceivedOk(cfg: Config, issued: seq<PartitionMap>, ledger: Accounts, s: Shard, k: ShardId) {
    forall i :: i in s.received ==> ParcelOk(cfg, issued, ledger, s.round, i, k, s.received[i])
  }

  /** An open partition request carries every account that comes to this shard. */
  ghost predicate TransferOk(cfg: Config, issued: seq<PartitionMap>, ledger: Accounts, s: Shard, k: ShardId)
    requires s.round < |issued|
  {
    s.stage.PartitionOpen? ==>
      (forall a :: a in s.stage.atm.accounts <==>
                   HomeAt(cfg, issued, s.round, a) != k && HomeAt(cfg, issued, s.round + 1, a) == k)
      && (forall a :: a in s.stage.atm.accounts ==> s.stage.atm.accounts[a] == Fetch(ledger, a, 0))
  }

  ghost predicate QueuesOk(cfg: Config, issued: seq<PartitionMap>, s: Shard, k: ShardId)
    requires Shipped(s) <= |issued|
  {
    AllAtHome(SiteAt(cfg, issued, Shipped(s), k), s.queue)
    && (s.stage.BlockOpen? ==> AllAtHome(SiteAt(cfg, issued, Shipped(s), k), s.stage.body))
  }

  ghost predicate ShardPlaced(cfg: Config, issued: seq<PartitionMap>, ledger: Accounts, s: Shard, k: ShardId) {
    Shipped(s) <= |issued|
    && QueuesOk(cfg, issued, s, k)
    && HeldOk(cfg, issued, ledger, s, k)
    && ReceivedOk(cfg, issued, ledger, s, k)
    && (s.stage.PartitionOpen? ==> TransferOk(cfg, issued, ledger, s, k))
  }

  ghost predicate PacketPlaced(cfg: Config, shards: seq<Shard>, issued: seq<PartitionMap>, ledger: Accounts,
      pkt: Packet) {
    match pkt
    case Inject(k, txs) =>
      k < |shards| && Shipped(shards[k]) <= |issued|
      && AllAtHome(SiteAt(cfg, issued, Shipped(shards[k]), k), txs)
    case Relay(_, k, txs, _) =>
      k < |shards| && Shipped(shards[k]) <= |issued|
      && AllAtHome(SiteAt(cfg, issued, Shipped(shards[k]), k), txs)
    case Shipment(i, k, parcel) =>
      k < |shards| && ParcelOk(cfg, issued, ledger, shards[k].round, i, k, parcel)
    case _ => true
  }

  ghost predicate PlacedAt(cfg: Config, shards: seq<Shard>, issued: seq<PartitionMap>, ledger: Accounts, k: ShardId)
    requires k < |shards|
  {
    ShardPlaced(cfg, issued, ledger, shards[k], k)
  }

  ghost predicate ShardsPlaced(cfg: Config, shards: seq<Shard>, issued: seq<PartitionMap>, ledger: Accounts) {
    forall k: nat :: k < |shards| ==> PlacedAt(cfg, shards, issued, ledger, k)
  }

  ghost predicate PacketsPlaced(cfg: Config, shards: seq<Shard>, issued: seq<PartitionMap>, ledger: Accounts,
      net: seq<Packet>) {
    forall pkt :: pkt in net ==> PacketPlaced(cfg, shards, issued, ledger, pkt)
  }

  ghost predicate Placed(cfg: Config, s: System) {
    ShardsPlaced(cfg, s.shards, s.sup.issued, s.hist.ledger)
    && PacketsPlaced(cfg, s.shards, s.sup.issued, s.hist.ledger, s.net)
  }

  lemma PlacedShard(cfg: Config, s: System, k: ShardId)
    requires Placed(cfg, s) && k < |s.shards|
    ensures ShardPlaced(cfg, s.sup.issued, s.hist.ledger, s.shards[k], k)
  {
    assert PlacedAt(cfg, s.shards, s.sup.issued, s.hist.ledger, k);
  }

  lemma ShardPlacedAgain(cfg: Config, s: System, k: ShardId, t: Shard)
    requires Placed(cfg, s) && k < |s.shards| && ShardPlaced(cfg, s.sup.issued, s.hist.ledger, t, k)
    ensures ShardsPlaced(cfg, s.shards[k := t], s.sup.issued, s.hist.ledger)
  {
    var after := s.shards[k := t];
    forall j: nat | j < |after| ensures PlacedAt(cfg, after, s.sup.issued, s.hist.ledger, j) {
      assert PlacedAt(cfg, s.shards, s.sup.issued, s.hist.ledger, j);
    }
  }

  lemma PlacedPacket(cfg: Config, s: System, pkt: Packet)
    requires Placed(cfg, s) && pkt in s.net
    ensures PacketPlaced(cfg, s.shards, s.sup.issued, s.hist.ledger, pkt)
  {
  }

  lemma InitialPlaced(cfg: Config, s: System)
    requires cfg.Valid() && Initial(cfg, s)
    ensures Placed(cfg, s)
  {
  }

  // ---------- The queue split ----------

  lemma {:induction false} PickedIn(queue: seq<Tx>, keys: set<Addr>)
    ensures forall tx :: tx in Picked(queue, keys) <==> tx in queue && Anchor(tx) in keys
    ensures forall tx :: tx in Kept(queue, keys) <==> tx in queue && Anchor(tx) !in keys
  {
    if queue != [] {
      var init, tx := queue[..|queue| - 1], queue[|queue| - 1];
      PickedIn(init, keys);
      assert queue == init + [tx];
    }
  }

  lemma {:induction false} ShipQueueIn(cfg: Config, s: Shard, id: ShardId, n: nat)
    requires s.maps != []
    ensures forall tx :: tx in ShipQueue(cfg, s, id, n) ==>
      tx in s.queue && forall k: nat :: k < n && k != id ==> Anchor(tx) !in Moved(cfg, s, id, k)
  {
    if n > 0 {
      ShipQueueIn(cfg, s, id, n - 1);
      PickedIn(ShipQueue(cfg, s, id, n - 1), Moved(cfg, s, id, n - 1).Keys);
    }
  }

  /** What is shipped to `k`: the accounts map `r` moves there, and transactions they placed. */
  lemma ParcelIsOk(cfg: Config, issued: seq<PartitionMap>, ledger: Accounts, s: Shard, id: ShardId, k: ShardId)
    requires s.maps != [] && |s.maps| == s.round + 1 && |s.maps| <= |issued| && s.maps == issued[..|s.maps|]
    requires s.pmap == Overlay(issued, s.round) && Shipped(s) == s.round
    requires QueuesOk(cfg, issued, s, id) && HeldOk(cfg, issued, ledger, s, id)
    requires k != id
    ensures ParcelOk(cfg, issued, ledger, s.round, id, k, ParcelFor(cfg, s, id, k))
  {
    var moved := Moved(cfg, s, id, k);
    assert s.maps[|s.maps| - 1] == issued[s.round];
    forall a ensures a in moved <==> Moves(cfg, issued, s.round, a, id, k) {
    }
    forall a | a in moved ensures moved[a] == Fetch(ledger, a, 0) {
      assert Holds(cfg, issued, s, id, a);
    }
    PickedIn(ShipQueue(cfg, s, id, k), moved.Keys);
    ShipQueueIn(cfg, s, id, k);
    forall tx | tx in ParcelFor(cfg, s, id, k).txs ensures !tx.hasBroker && Anchor(tx) in moved {
      assert tx in s.queue;
    }
  }

  lemma MovedHas(cfg: Config, s: Shard, id: ShardId, a: Addr)
    requires s.maps != []
    requires var m := s.maps[|s.maps| - 1]; a in m && m[a] != id && HomeOf(cfg, s.pmap, a) == id
    ensures a in Moved(cfg, s, id, s.maps[|s.maps| - 1][a])
  {
  }

  /** What stays belongs here under the new map as well. */
  lemma KeptAtHome(cfg: Config, issued: seq<PartitionMap>, s: Shard, id: ShardId)
    requires s.maps != [] && |s.maps| == s.round + 1 && |s.maps| <= |issued| && s.maps == issued[..|s.maps|]
    requires s.pmap == Overlay(issued, s.round) && Shipped(s) == s.round
    requires QueuesOk(cfg, issued, s, id)
    requires InRange(cfg, issued[s.round])
    ensures AllAtHome(SiteAt(cfg, issued, s.round + 1, id), ShipQueue(cfg, s, id, cfg.shards))
  {
    ShipQueueIn(cfg, s, id, cfg.shards);
    assert s.maps[|s.maps| - 1] == issued[s.round];
    forall tx | tx in ShipQueue(cfg, s, id, cfg.shards)
      ensures AtHome(SiteAt(cfg, issued, s.round + 1, id), tx)
    {
      assert AtHome(SiteAt(cfg, issued, s.round, id), tx);
      var a := Anchor(tx);
      if a in issued[s.round] && issued[s.round][a] != id {
        MovedHas(cfg, s, id, a);
        assert false;
      }
    }
  }

  // ---------- Merging what was received ----------

  lemma {:induction false} MergedTxsIn(received: map<ShardId, Parcel>, order: seq<ShardId>)
    requires forall k :: k in order ==> k in received
    ensures forall tx :: tx in MergedTxs(received, order) ==> exists k :: k in order && tx in received[k].txs
  {
    if order != [] {
      var init, last := order[..|order| - 1], order[|order| - 1];
      assert order == init + [last];
      MergedTxsIn(received, init);
      assert last in order;
    }
  }

  lemma {:induction false} MergedAccountsIn(received: map<ShardId, Parcel>, order: seq<ShardId>, ledger: Accounts)
    requires forall k :: k in order ==> k in received
    requires forall k, a :: k in order && a in received[k].accounts ==> received[k].accounts[a] == Fetch(ledger, a, 0)
    ensures forall a :: a in MergedAccounts(received, order) <==> exists k :: k in order && a in received[k].accounts
    ensures forall a :: a in MergedAccounts(received, order) ==>
      MergedAccounts(received, order)[a] == Fetch(ledger, a, 0)
  {
    if order != [] {
      var init, last := order[..|order| - 1], order[|order| - 1];
      assert order == init + [last];
      MergedAccountsIn(received, init, ledger);
      assert last in order;
      forall a ensures a in MergedAccounts(received, order) <==> exists k :: k in order && a in received[k].accounts {
        if k :| k in order && a in received[k].accounts {
          assert k == last || k in init;
        }
      }
    }
  }

  lemma {:induction false} RelayTxsAre(cfg: Config, pmap: PartitionMap, body: seq<Tx>, k: ShardId)
    ensures forall tx :: tx in RelayTxs(cfg, pmap, body, k) ==>
      tx.relayed && HomeOf(cfg, pmap, tx.recipient) == k && exists orig :: orig in body && tx == Mark(orig)
  {
    if body != [] {
      var init, tx := body[..|body| - 1], body[|body| - 1];
      assert body == init + [tx];
      RelayTxsAre(cfg, pmap, init, k);
      assert tx in body;
    }
  }
}
