/**
 Exactly-once bookkeeping: at every step, what is pending anywhere, what was executed and
 what was injected balance as multisets.
 */
module Tally {
  import opened Basics
  import opened Ledger
  import opened Execution
  import opened Shards
  import opened Protocol
  import opened Rounds

  /** How often `x` occurs in a list. */
  function Occ(txs: seq<Tx>, x: Tx): nat {
    if txs == [] then 0 else Occ(txs[..|txs| - 1], x) + if txs[|txs| - 1] == x then 1 else 0
  }

  lemma {:induction false} OccConcat(a: seq<Tx>, b: seq<Tx>, x: Tx)
    ensures Occ(a + b, x) == Occ(a, x) + Occ(b, x)
  {
    if b == [] {
      assert a + b == a;
    } else {
      assert (a + b)[..|a + b| - 1] == a + b[..|b| - 1];
      OccConcat(a, b[..|b| - 1], x);
    }
  }

  lemma OccSnoc(txs: seq<Tx>, tx: Tx, x: Tx)
    ensures Occ(txs + [tx], x) == Occ(txs, x) + if tx == x then 1 else 0
  {
    assert (txs + [tx])[..|txs + [tx]| - 1] == txs;
  }

  lemma {:induction false} OccIsMultiplicity(txs: seq<Tx>, x: Tx)
    ensures Occ(txs, x) == multiset(txs)[x]
  {
    if txs != [] {
      OccIsMultiplicity(txs[..|txs| - 1], x);
      assert txs == txs[..|txs| - 1] + [txs[|txs| - 1]];
    }
  }

  /** Occurrences in the received parcels of the given senders below `n`. */
  ghost function ParcelOcc(received: map<ShardId, Parcel>, keys: set<ShardId>, n: nat, x: Tx): nat {
    if n == 0 then 0
    else
      ParcelOcc(received, keys, n - 1, x)
        + if n - 1 in keys && n - 1 in received then Occ(received[n - 1].txs, x) else 0
  }

  /** Occurrences among what a shard has not finished: queue, open block, parcels not yet merged. */
  ghost function Held(s: Shard, n: nat, x: Tx): nat {
    Occ(s.queue, x)
      + (if s.stage.BlockOpen? then Occ(s.stage.body, x) else 0)
      + (if s.stage.PartitionOpen? then 0 else ParcelOcc(s.received, s.received.Keys, n, x))
  }

  function TxsOf(pkt: Packet): seq<Tx> {
    match pkt
    case Inject(_, txs) => txs
    case Relay(_, _, txs, _) => txs
    case Shipment(_, _, parcel) => parcel.txs
    case _ => []
  }

  function Carried(net: seq<Packet>, x: Tx): nat {
    if net == [] then 0 else Carried(net[..|net| - 1], x) + Occ(TxsOf(net[|net| - 1]), x)
  }

  ghost function HeldByAll(shards: seq<Shard>, n: nat, x: Tx): nat {
    if shards == [] then 0 else HeldByAll(shards[..|shards| - 1], n, x) + Held(shards[|shards| - 1], n, x)
  }

  /** Occurrences of `x` anywhere in the system: queues, open blocks, parcels, messages. */
  ghost function Pending(cfg: Config, s: System, x: Tx): nat {
    HeldByAll(s.shards, cfg.shards, x) + Carried(s.net, x)
  }

  ghost predicate Balanced(cfg: Config, s: System, x: Tx) {
    Pending(cfg, s, x) + Occ(s.hist.first, x) + Occ(s.hist.second, x)
      == Occ(s.hist.injected, x) + Occ(MarkAll(s.hist.first), x)
  }

  ghost predicate PhasesMarked(h: History) {
    (forall tx :: tx in h.injected || tx in h.first ==> !tx.relayed)
    && (forall tx :: tx in h.second ==> tx.relayed)
  }

  ghost predicate Tallied(cfg: Config, s: System) {
    (forall x :: Balanced(cfg, s, x)) && PhasesMarked(s.hist)
  }

  // ---------- Sums ----------

  lemma {:induction false} HeldByAllUpdate(shards: seq<Shard>, k: nat, t: Shard, n: nat, x: Tx)
    requires k < |shards|
    ensures HeldByAll(shards[k := t], n, x) + Held(shards[k], n, x) == HeldByAll(shards, n, x) + Held(t, n, x)
  {
    var last := |shards| - 1;
    if k == last {
      assert shards[k := t][..last] == shards[..last];
    } else {
      assert shards[k := t][..last] == shards[..last][k := t];
      HeldByAllUpdate(shards[..last], k, t, n, x);
    }
  }

  lemma {:induction false} CarriedConcat(a: seq<Packet>, b: seq<Packet>, x: Tx)
    ensures Carried(a + b, x) == Carried(a, x) + Carried(b, x)
  {
    if b == [] {
      assert a + b == a;
    } else {
      assert (a + b)[..|a + b| - 1] == a + b[..|b| - 1];
      CarriedConcat(a, b[..|b| - 1], x);
    }
  }

  lemma CarriedSnoc(net: seq<Packet>, pkt: Packet, x: Tx)
    ensures Carried(net + [pkt], x) == Carried(net, x) + Occ(TxsOf(pkt), x)
  {
    assert (net + [pkt])[..|net + [pkt]| - 1] == net;
  }

  lemma CarriedRemove(net: seq<Packet>, p: nat, x: Tx)
    requires p < |net|
    ensures Carried(net, x) == Carried(RemoveAt(net, p), x) + Occ(TxsOf(net[p]), x)
  {
    var before, after := net[..p], net[p + 1..];
    assert net == (before + [net[p]]) + after;
    CarriedConcat(before + [net[p]], after, x);
    CarriedSnoc(before, net[p], x);
    CarriedConcat(before, after, x);
  }

  // ---------- Parcels ----------

  lemma {:induction false} ParcelOccInsert(received: map<ShardId, Parcel>, i: ShardId, parcel: Parcel, n: nat, x: Tx)
    requires i !in received
    ensures var after := received[i := parcel];
      ParcelOcc(after, after.Keys, n, x)
        == ParcelOcc(received, received.Keys, n, x) + if i < n then Occ(parcel.txs, x) else 0
  {
    if n > 0 {
      ParcelOccInsert(received, i, parcel, n - 1, x);
    }
  }

  lemma {:induction false} ParcelOccAdd(received: map<ShardId, Parcel>, keys: set<ShardId>, i: ShardId, n: nat, x: Tx)
    requires i !in keys && i in received
    ensures ParcelOcc(received, keys + {i}, n, x)
         == ParcelOcc(received, keys, n, x) + if i < n then Occ(received[i].txs, x) else 0
  {
    if n > 0 {
      ParcelOccAdd(received, keys, i, n - 1, x);
    }
  }

  lemma {:induction false} ParcelOccNone(received: map<ShardId, Parcel>, n: nat, x: Tx)
    ensures ParcelOcc(received, {}, n, x) == 0
  {
    if n > 0 {
      ParcelOccNone(received, n - 1, x);
    }
  }

  function Elements(order: seq<ShardId>): set<ShardId> {
    set k | k in order
  }

  /** Merging the parcels in any order of their senders yields all their transactions. */
  lemma {:induction false} MergedIsAll(received: map<ShardId, Parcel>, order: seq<ShardId>, n: nat, x: Tx)
    requires forall k :: k in order ==> k in received && k < n
    requires forall i, j :: 0 <= i < j < |order| ==> order[i] != order[j]
    ensures Occ(MergedTxs(received, order), x) == ParcelOcc(received, Elements(order), n, x)
  {
    if order == [] {
      assert Elements(order) == {};
      ParcelOccNone(received, n, x);
    } else {
      var init, last := order[..|order| - 1], order[|order| - 1];
      assert order == init + [last];
      assert last in order && forall k :: k in init ==> k in order;
      MergedIsAll(received, init, n, x);
      assert Elements(order) == Elements(init) + {last};
      ParcelOccAdd(received, Elements(init), last, n, x);
      OccConcat(MergedTxs(received, init), received[last].txs, x);
    }
  }

  // ---------- The queue split ----------

  lemma {:induction false} SplitKeepsAll(queue: seq<Tx>, keys: set<Addr>, x: Tx)
    ensures Occ(Picked(queue, keys), x) + Occ(Kept(queue, keys), x) == Occ(queue, x)
  {
    if queue != [] {
      var init, tx := queue[..|queue| - 1], queue[|queue| - 1];
      SplitKeepsAll(init, keys, x);
      assert Picked(init, keys) + [] == Picked(init, keys);
      assert Kept(init, keys) + [] == Kept(init, keys);
      OccSnoc(Picked(init, keys), tx, x);
      OccSnoc(Kept(init, keys), tx, x);
    }
  }

  lemma ShipmentsCarry(parcels: seq<Parcel>, id: ShardId, n: nat, x: Tx)
    requires 0 < n <= |parcels|
    ensures Carried(Shipments(parcels, id, n), x)
         == Carried(Shipments(parcels, id, n - 1), x) + if n - 1 == id then 0 else Occ(parcels[n - 1].txs, x)
  {
    var prev := Shipments(parcels, id, n - 1);
    assert prev + [] == prev;
    CarriedSnoc(prev, Shipment(id, n - 1, parcels[n - 1]), x);
  }

  lemma ShipOne(cfg: Config, s: Shard, id: ShardId, k: nat, x: Tx)
    requires s.maps != [] && k != id
    ensures Occ(ParcelFor(cfg, s, id, k).txs, x) + Occ(ShipQueue(cfg, s, id, k + 1), x)
      == Occ(ShipQueue(cfg, s, id, k), x)
  {
    SplitKeepsAll(ShipQueue(cfg, s, id, k), Moved(cfg, s, id, k).Keys, x);
  }

  /** Split number `k` takes out of its queue what its parcel carries. */
  ghost predicate SplitAt(parcels: seq<Parcel>, queues: seq<seq<Tx>>, id: ShardId, k: nat, x: Tx)
    requires k < |parcels| && k + 1 < |queues|
  {
    Occ(queues[k], x) == Occ(queues[k + 1], x) + if k == id then 0 else Occ(parcels[k].txs, x)
  }

  /** Splitting a queue once per receiver loses nothing and duplicates nothing. */
  lemma {:induction false} SplitsKeepAll(parcels: seq<Parcel>, queues: seq<seq<Tx>>, id: ShardId, n: nat, x: Tx)
    requires n <= |parcels| && n < |queues|
    requires forall k: nat :: k < n ==> SplitAt(parcels, queues, id, k, x)
    ensures Carried(Shipments(parcels, id, n), x) + Occ(queues[n], x) == Occ(queues[0], x)
  {
    if n > 0 {
      SplitsKeepAll(parcels, queues, id, n - 1, x);
      ShipmentsCarry(parcels, id, n, x);
      assert SplitAt(parcels, queues, id, n - 1, x);
    }
  }

  /** The queues left after shipping to the shards below 0, 1, ..., `n`. */
  function QueuesLeft(cfg: Config, s: Shard, id: ShardId, n: nat): (r: seq<seq<Tx>>)
    requires s.maps != []
    ensures |r| == n + 1 && forall k :: 0 <= k <= n ==> r[k] == ShipQueue(cfg, s, id, k)
  {
    if n == 0 then [ShipQueue(cfg, s, id, 0)] else QueuesLeft(cfg, s, id, n - 1) + [ShipQueue(cfg, s, id, n)]
  }

  /** The old queue is what stays plus everything shipped. */
  lemma ShippingKeepsAll(cfg: Config, s: Shard, id: ShardId, x: Tx)
    requires s.maps != []
    ensures Carried(Shipments(Parcels(cfg, s, id), id, cfg.shards), x) + Occ(ShipQueue(cfg, s, id, cfg.shards), x)
         == Occ(s.queue, x)
  {
    var parcels, queues := Parcels(cfg, s, id), QueuesLeft(cfg, s, id, cfg.shards);
    forall k: nat | k < cfg.shards ensures SplitAt(parcels, queues, id, k, x) {
      if k != id {
        ShipOne(cfg, s, id, k, x);
      }
    }
    SplitsKeepAll(parcels, queues, id, cfg.shards, x);
  }

  // ---------- What a block does to the tally ----------

  /** Marked copies of the body's transactions that leave the shard. */
  function Leaving(site: Site, body: seq<Tx>): seq<Tx> {
    if body == [] then []
    else
      var tx := body[|body| - 1];
      Leaving(site, body[..|body| - 1]) + if Local(site, tx.recipient) then [] else [Mark(tx)]
  }

  /** Occurrences among the transactions relayed to the shards below `n`. */
  function RelayedBelow(site: Site, body: seq<Tx>, n: nat, x: Tx): nat {
    if n == 0 then 0
    else
      RelayedBelow(site, body, n - 1, x)
        + if n - 1 == site.shard then 0 else Occ(RelayTxs(site.cfg, site.pmap, body, n - 1), x)
  }

  lemma {:induction false} RelayMsgsCarry(cfg: Config, s: Shard, id: ShardId, body: seq<Tx>, n: nat, x: Tx)
    ensures Carried(RelayMsgs(cfg, s, id, body, n), x) == RelayedBelow(SiteOf(cfg, s, id), body, n, x)
  {
    if n > 0 {
      RelayMsgsCarry(cfg, s, id, body, n - 1, x);
      var prev := RelayMsgs(cfg, s, id, body, n - 1);
      if n - 1 == id {
        assert prev + [] == prev;
      } else {
        CarriedSnoc(prev, Relay(id, n - 1, RelayTxs(cfg, s.pmap, body, n - 1), s.seqId), x);
      }
    }
  }

  lemma RelayTxsOcc(cfg: Config, pmap: PartitionMap, body: seq<Tx>, k: ShardId, x: Tx)
    requires body != []
    ensures var tx := body[|body| - 1];
      Occ(RelayTxs(cfg, pmap, body, k), x)
        == Occ(RelayTxs(cfg, pmap, body[..|body| - 1], k), x)
         + if HomeOf(cfg, pmap, tx.recipient) == k && Mark(tx) == x then 1 else 0
  {
    var tx, init := body[|body| - 1], RelayTxs(cfg, pmap, body[..|body| - 1], k);
    assert init + [] == init;
    OccSnoc(init, Mark(tx), x);
  }

  lemma {:induction false} RelayedBelowStep(site: Site, body: seq<Tx>, n: nat, x: Tx)
    requires body != []
    ensures var tx := body[|body| - 1];
      var home := HomeOf(site.cfg, site.pmap, tx.recipient);
      RelayedBelow(site, body, n, x)
        == RelayedBelow(site, body[..|body| - 1], n, x)
         + if home < n && home != site.shard && Mark(tx) == x then 1 else 0
  {
    if n > 0 {
      RelayedBelowStep(site, body, n - 1, x);
      if n - 1 != site.shard {
        RelayTxsOcc(site.cfg, site.pmap, body, n - 1, x);
      }
    }
  }

  lemma {:induction false} RelayedBelowNone(site: Site, n: nat, x: Tx)
    ensures RelayedBelow(site, [], n, x) == 0
  {
    if n > 0 {
      RelayedBelowNone(site, n - 1, x);
    }
  }

  /** Together the relay messages carry each leaving transaction once. */
  lemma {:induction false} RelayedIsLeaving(site: Site, body: seq<Tx>, x: Tx)
    requires site.cfg.Valid() && InRange(site.cfg, site.pmap)
    ensures RelayedBelow(site, body, site.cfg.shards, x) == Occ(Leaving(site, body), x)
  {
    if body == [] {
      RelayedBelowNone(site, site.cfg.shards, x);
    } else {
      var init, tx := body[..|body| - 1], body[|body| - 1];
      RelayedIsLeaving(site, init, x);
      RelayedBelowStep(site, body, site.cfg.shards, x);
      assert Leaving(site, init) + [] == Leaving(site, init);
      OccSnoc(Leaving(site, init), Mark(tx), x);
    }
  }

  lemma {:induction false} MarkAllConcat(a: seq<Tx>, b: seq<Tx>)
    ensures MarkAll(a + b) == MarkAll(a) + MarkAll(b)
  {
  }

  lemma BodyTallyLast(site: Site, body: seq<Tx>, x: Tx)
    requires body != []
    ensures var tx, init := body[|body| - 1], body[..|body| - 1];
      Occ(Leaving(site, body), x)
        == Occ(Leaving(site, init), x) + (if !Local(site, tx.recipient) && Mark(tx) == x then 1 else 0)
      && Occ(Seconds(site, body), x)
        == Occ(Seconds(site, init), x) + (if Local(site, tx.recipient) && Mark(tx) == x then 1 else 0)
      && Occ(Firsts(body), x) == Occ(Firsts(init), x) + (if !tx.relayed && tx == x then 1 else 0)
      && Occ(MarkAll(Firsts(body)), x)
        == Occ(MarkAll(Firsts(init)), x) + (if !tx.relayed && Mark(tx) == x then 1 else 0)
  {
    var tx, init := body[|body| - 1], body[..|body| - 1];
    OccSnoc(Leaving(site, init), Mark(tx), x);
    OccSnoc(Seconds(site, init), Mark(tx), x);
    OccSnoc(Firsts(init), tx, x);
    OccSnoc(MarkAll(Firsts(init)), Mark(tx), x);
    assert Leaving(site, init) + [] == Leaving(site, init);
    assert Seconds(site, init) + [] == Seconds(site, init);
    assert Firsts(init) + [] == Firsts(init);
    MarkAllConcat(Firsts(init), [tx]);
    assert MarkAll([tx]) == [Mark(tx)];
  }

  /** A block at its home: each transaction leaves marked or is finished, and one that was not
      relayed yet has its first phase. */
  lemma {:induction false} BodyTally(site: Site, body: seq<Tx>, x: Tx)
    requires AllAtHome(site, body)
    ensures Occ(Leaving(site, body), x) + Occ(Firsts(body), x) + Occ(Seconds(site, body), x)
         == Occ(body, x) + Occ(MarkAll(Firsts(body)), x)
  {
    if body != [] {
      var init, tx := body[..|body| - 1], body[|body| - 1];
      assert AllAtHome(site, init);
      BodyTally(site, init, x);
      BodyTallyLast(site, body, x);
      assert tx.relayed ==> Mark(tx) == tx;
    }
  }
}
