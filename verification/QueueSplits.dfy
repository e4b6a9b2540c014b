/**
 What the two queue splits do with the whole queue, over all receivers: where each transaction goes is
 decided by the last partition map, the order is kept, and every transaction is somewhere exactly once.
 */
module QueueSplits {
  import opened Basics
  import opened Ledger
  import opened Execution
  import opened Shards
  import opened Tally
  import opened TxPool

  // ---------- Where the map sends a transaction ----------

  /** What decides a split: the last map, the shard and the map it still runs under. */
  datatype Plan = Plan(cfg: Config, pmap: PartitionMap, m: PartitionMap, id: ShardId, brokers: bool)

  datatype Verdict = Remains | ToShard(k: ShardId) | Returned(k: ShardId)

  predicate Leaves(plan: Plan, a: Addr) {
    a in plan.m && plan.m[a] != plan.id && plan.m[a] < plan.cfg.shards && HomeOf(plan.cfg, plan.pmap, a) == plan.id
  }

  /** The shard the map moves an account of this shard to. */
  function Dest(plan: Plan, a: Addr): Option<ShardId> {
    if Leaves(plan, a) then Some(plan.m[a]) else None
  }

  function Sooner(x: Option<ShardId>, y: Option<ShardId>): Option<ShardId> {
    match (x, y)
    case (Some(i), Some(k)) => if i < k then x else y
    case (Some(i), None) => x
    case (None, _) => y
  }

  /** A transaction goes with the account that placed it. In the broker mode one without a broker is
      handed back instead, when the first of its accounts leaves. */
  function VerdictOf(plan: Plan, tx: Tx): Verdict {
    if plan.brokers && !WithBroker(tx) then
      match Sooner(Dest(plan, tx.sender), Dest(plan, tx.recipient))
      case Some(k) => Returned(k)
      case None => Remains
    else if plan.brokers && !WellFormed(tx) then Remains
    else
      match Dest(plan, if plan.brokers then Placer(tx) else Anchor(tx))
      case Some(k) => ToShard(k)
      case None => Remains
  }

  /** The transactions of the queue with the given verdict, in their order. */
  function With(plan: Plan, queue: seq<Tx>, v: Verdict): seq<Tx> {
    if queue == [] then []
    else
      var tx := queue[|queue| - 1];
      With(plan, queue[..|queue| - 1], v) + if VerdictOf(plan, tx) == v then [tx] else []
  }

  // ---------- Order ----------

  ghost predicate Increasing(idx: seq<nat>) {
    forall i, j :: 0 <= i < j < |idx| ==> idx[i] < idx[j]
  }

  /** `part` lists the elements of `queue` at the increasing positions `idx`. */
  ghost predicate ListedBy(part: seq<Tx>, queue: seq<Tx>, idx: seq<nat>) {
    |idx| == |part| && Increasing(idx)
    && forall j :: 0 <= j < |idx| ==> idx[j] < |queue| && part[j] == queue[idx[j]]
  }

  /** The positions listed are exactly those with the verdict. */
  ghost predicate Selects(plan: Plan, idx: seq<nat>, queue: seq<Tx>, v: Verdict) {
    forall i: nat :: i < |queue| ==> (i in idx <==> VerdictOf(plan, queue[i]) == v)
  }

  lemma ListedSnoc(part: seq<Tx>, queue: seq<Tx>, idx: seq<nat>)
    requires queue != [] && ListedBy(part, queue[..|queue| - 1], idx)
    ensures ListedBy(part, queue, idx) && ListedBy(part + [queue[|queue| - 1]], queue, idx + [|queue| - 1])
  {
  }

  /** What has one verdict is a subsequence of the queue, at exactly the positions with that verdict. */
  lemma {:induction false} PartIsStable(plan: Plan, queue: seq<Tx>, v: Verdict) returns (idx: seq<nat>)
    ensures ListedBy(With(plan, queue, v), queue, idx) && Selects(plan, idx, queue, v)
  {
    if queue == [] {
      idx := [];
    } else {
      var last := |queue| - 1;
      idx := PartIsStable(plan, queue[..last], v);
      var init := With(plan, queue[..last], v);
      ListedSnoc(init, queue, idx);
      assert init + [] == init;
      var before := idx;
      if VerdictOf(plan, queue[last]) == v {
        idx := idx + [last];
      }
      forall i: nat | i < last ensures i in idx <==> VerdictOf(plan, queue[i]) == v {
        assert queue[..last][i] == queue[i];
        assert i in idx <==> i in before;
      }
    }
  }

  // ---------- The basic split ----------

  /** Handled before receiver `k`. */
  predicate Earlier(v: Verdict, k: nat) {
    !v.Remains? && v.k < k
  }

  function PlanOf(cfg: Config, s: Shard, id: ShardId, brokers: bool): Plan
    requires s.maps != []
  {
    Plan(cfg, s.pmap, s.maps[|s.maps| - 1], id, brokers)
  }

  /** The accounts moved to shard `k`. */
  function KeysTo(plan: Plan, k: ShardId): set<Addr> {
    set a | a in plan.m && Dest(plan, a) == Some(k)
  }

  /** They are the accounts a shard ships there. */
  lemma KeysAreMoved(cfg: Config, s: Shard, id: ShardId, k: ShardId)
    requires s.maps != [] && k < cfg.shards
    ensures KeysTo(PlanOf(cfg, s, id, false), k) == Moved(cfg, s, id, k).Keys == KeysTo(PlanOf(cfg, s, id, true), k)
  {
  }

  lemma KeptSnoc(queue: seq<Tx>, tx: Tx, keys: set<Addr>)
    ensures Kept(queue + [tx], keys) == Kept(queue, keys) + if Travels(tx, keys) then [] else [tx]
    ensures Picked(queue + [tx], keys) == Picked(queue, keys) + if Travels(tx, keys) then [tx] else []
  {
    assert (queue + [tx])[..|queue + [tx]| - 1] == queue;
  }

  /** A transaction that is in the queue unless `before`, seen by one more split. */
  lemma KeptStep(queue: seq<Tx>, tx: Tx, keys: set<Addr>, before: bool)
    ensures var longer := queue + if before then [] else [tx];
      Kept(longer, keys) == Kept(queue, keys) + (if before || Travels(tx, keys) then [] else [tx])
      && Picked(longer, keys) == Picked(queue, keys) + (if !before && Travels(tx, keys) then [tx] else [])
  {
    if before {
      assert queue + [] == queue;
    } else {
      KeptSnoc(queue, tx, keys);
    }
  }

  lemma {:induction false} KeptWithoutKeys(queue: seq<Tx>)
    ensures Kept(queue, {}) == queue
  {
    if queue != [] {
      KeptWithoutKeys(queue[..|queue| - 1]);
    }
  }

  /** The queue left after the first `k` receivers, the shard itself counted as one that gets nothing. */
  function Unsent(plan: Plan, queue: seq<Tx>, k: nat): seq<Tx> {
    if k == 0 then queue else Kept(Unsent(plan, queue, k - 1), KeysTo(plan, k - 1))
  }

  lemma NothingToSelf(plan: Plan)
    ensures KeysTo(plan, plan.id) == {}
  {
  }

  lemma SelfSkipped(plan: Plan, queue: seq<Tx>)
    ensures Unsent(plan, queue, plan.id + 1) == Unsent(plan, queue, plan.id)
  {
    NothingToSelf(plan);
    KeptWithoutKeys(Unsent(plan, queue, plan.id));
  }

  lemma UnsentStep(cfg: Config, s: Shard, id: ShardId, k: nat, plan: Plan)
    requires s.maps != [] && k < cfg.shards && plan == PlanOf(cfg, s, id, false)
    requires ShipQueue(cfg, s, id, k) == Unsent(plan, s.queue, k)
    ensures ShipQueue(cfg, s, id, k + 1) == Unsent(plan, s.queue, k + 1)
  {
    if k == id {
      SelfSkipped(plan, s.queue);
    } else {
      KeysAreMoved(cfg, s, id, k);
    }
  }

  lemma {:induction false} ShipQueueIsUnsent(cfg: Config, s: Shard, id: ShardId, k: nat, plan: Plan)
    requires s.maps != [] && k <= cfg.shards && plan == PlanOf(cfg, s, id, false)
    ensures ShipQueue(cfg, s, id, k) == Unsent(plan, s.queue, k)
  {
    if k > 0 {
      var j := k - 1;
      ShipQueueIsUnsent(cfg, s, id, j, plan);
      UnsentStep(cfg, s, id, j, plan);
      assert j + 1 == k;
    }
  }

  lemma TravelsByMap(plan: Plan, k: ShardId, tx: Tx)
    requires !plan.brokers
    ensures Travels(tx, KeysTo(plan, k)) <==> VerdictOf(plan, tx) == ToShard(k)
    ensures Earlier(VerdictOf(plan, tx), k + 1) <==> Earlier(VerdictOf(plan, tx), k) || Travels(tx, KeysTo(plan, k))
    ensures Travels(tx, KeysTo(plan, k)) ==> !Earlier(VerdictOf(plan, tx), k)
  {
  }

  /** `longer` is `shorter` and, unless it is gone by receiver `k`, the transaction. */
  predicate OneMore(plan: Plan, longer: seq<Tx>, shorter: seq<Tx>, tx: Tx, k: nat) {
    longer == shorter + if Earlier(VerdictOf(plan, tx), k) then [] else [tx]
  }

  lemma OneMoreStep(plan: Plan, longer: seq<Tx>, shorter: seq<Tx>, tx: Tx, k: nat)
    requires !plan.brokers && OneMore(plan, longer, shorter, tx, k)
    ensures OneMore(plan, Kept(longer, KeysTo(plan, k)), Kept(shorter, KeysTo(plan, k)), tx, k + 1)
  {
    TravelsByMap(plan, k, tx);
    KeptStep(shorter, tx, KeysTo(plan, k), Earlier(VerdictOf(plan, tx), k));
  }

  /** One more transaction in the queue is one more that stays until its receiver's turn. */
  lemma {:induction false} UnsentSnoc(plan: Plan, queue: seq<Tx>, tx: Tx, k: nat)
    requires !plan.brokers
    ensures OneMore(plan, Unsent(plan, queue + [tx], k), Unsent(plan, queue, k), tx, k)
  {
    if k > 0 {
      var j := k - 1;
      UnsentSnoc(plan, queue, tx, j);
      OneMoreStep(plan, Unsent(plan, queue + [tx], j), Unsent(plan, queue, j), tx, j);
      assert Unsent(plan, queue + [tx], k) == Kept(Unsent(plan, queue + [tx], j), KeysTo(plan, j));
      assert Unsent(plan, queue, k) == Kept(Unsent(plan, queue, j), KeysTo(plan, j));
    }
  }

  lemma {:induction false} UnsentNothing(plan: Plan, k: nat)
    ensures Unsent(plan, [], k) == []
  {
    if k > 0 {
      UnsentNothing(plan, k - 1);
    }
  }

  lemma SentSnoc(plan: Plan, queue: seq<Tx>, tx: Tx, k: ShardId)
    requires !plan.brokers
    ensures Picked(Unsent(plan, queue + [tx], k), KeysTo(plan, k))
         == Picked(Unsent(plan, queue, k), KeysTo(plan, k)) + if VerdictOf(plan, tx) == ToShard(k) then [tx] else []
  {
    UnsentSnoc(plan, queue, tx, k);
    TravelsByMap(plan, k, tx);
    KeptStep(Unsent(plan, queue, k), tx, KeysTo(plan, k), Earlier(VerdictOf(plan, tx), k));
  }

  lemma {:induction false} SentByMap(plan: Plan, queue: seq<Tx>, k: ShardId)
    requires !plan.brokers
    ensures Picked(Unsent(plan, queue, k), KeysTo(plan, k)) == With(plan, queue, ToShard(k))
  {
    if queue == [] {
      UnsentNothing(plan, k);
    } else {
      var init, tx := queue[..|queue| - 1], queue[|queue| - 1];
      assert queue == init + [tx];
      SentByMap(plan, init, k);
      SentSnoc(plan, init, tx, k);
    }
  }

  lemma InRange(plan: Plan, tx: Tx)
    ensures Earlier(VerdictOf(plan, tx), plan.cfg.shards) <==> VerdictOf(plan, tx) != Remains
  {
  }

  lemma {:induction false} UnsentByMap(plan: Plan, queue: seq<Tx>)
    requires !plan.brokers
    ensures Unsent(plan, queue, plan.cfg.shards) == With(plan, queue, Remains)
  {
    if queue == [] {
      UnsentNothing(plan, plan.cfg.shards);
    } else {
      var init, tx := queue[..|queue| - 1], queue[|queue| - 1];
      assert queue == init + [tx];
      UnsentByMap(plan, init);
      UnsentSnoc(plan, init, tx, plan.cfg.shards);
      InRange(plan, tx);
    }
  }

  /** Over all receivers the basic split sends to shard `k` exactly the transactions whose placing
      account the last map moves to `k`, and leaves exactly those whose placing account stays, all in
      the order of the queue (`PartIsStable`). */
  lemma ShippedByMap(cfg: Config, s: Shard, id: ShardId, k: ShardId)
    requires s.maps != [] && k < cfg.shards
    ensures ParcelFor(cfg, s, id, k).txs == With(PlanOf(cfg, s, id, false), s.queue, ToShard(k))
    ensures Ship(cfg, s, id).queue == With(PlanOf(cfg, s, id, false), s.queue, Remains)
  {
    UnsentByMap(PlanOf(cfg, s, id, false), s.queue);
    SentByMap(PlanOf(cfg, s, id, false), s.queue, k);
    ShipQueueIsUnsent(cfg, s, id, k, PlanOf(cfg, s, id, false));
    ShipQueueIsUnsent(cfg, s, id, cfg.shards, PlanOf(cfg, s, id, false));
    KeysAreMoved(cfg, s, id, k);
  }

  /** The basic split is stable over all receivers: what goes to `k` and what stays are subsequences of the
      queue, at exactly the positions whose placing account the map moves to `k`, or does not move. */
  lemma ShippingIsStable(cfg: Config, s: Shard, id: ShardId, k: ShardId) returns (sent: seq<nat>, left: seq<nat>)
    requires s.maps != [] && k < cfg.shards && k != id
    ensures ListedBy(ParcelFor(cfg, s, id, k).txs, s.queue, sent) && ListedBy(Ship(cfg, s, id).queue, s.queue, left)
    ensures Selects(PlanOf(cfg, s, id, false), sent, s.queue, ToShard(k))
    ensures Selects(PlanOf(cfg, s, id, false), left, s.queue, Remains)
  {
    ShippedByMap(cfg, s, id, k);
    sent := PartIsStable(PlanOf(cfg, s, id, false), s.queue, ToShard(k));
    left := PartIsStable(PlanOf(cfg, s, id, false), s.queue, Remains);
  }

  // ---------- The broker variant ----------

  lemma WithFateOcc(queue: seq<Tx>, keys: set<Addr>, fate: Fate, x: Tx)
    requires queue != []
    ensures Occ(WithFate(queue, keys, fate), x) == Occ(WithFate(queue[..|queue| - 1], keys, fate), x)
      + if FateOf(queue[|queue| - 1], keys) == fate && queue[|queue| - 1] == x then 1 else 0
  {
    var init := WithFate(queue[..|queue| - 1], keys, fate);
    assert init + [] == init;
    OccSnoc(init, queue[|queue| - 1], x);
  }

  lemma {:induction false} FatesKeepAll(queue: seq<Tx>, keys: set<Addr>, x: Tx)
    ensures Occ(WithFate(queue, keys, Sent), x) + Occ(WithFate(queue, keys, BecomesCross), x)
          + Occ(WithFate(queue, keys, Stays), x) == Occ(queue, x)
  {
    if queue != [] {
      FatesKeepAll(queue[..|queue| - 1], keys, x);
      WithFateOcc(queue, keys, Sent, x);
      WithFateOcc(queue, keys, BecomesCross, x);
      WithFateOcc(queue, keys, Stays, x);
    }
  }

  /** The queue left after splitting for the first `n` receivers. */
  function Left(queue: seq<Tx>, keysets: seq<set<Addr>>, n: nat): seq<Tx>
    requires n <= |keysets|
  {
    if n == 0 then queue else WithFate(Left(queue, keysets, n - 1), keysets[n - 1], Stays)
  }

  /** Everything sent to them, and everything handed back. */
  function Gone(queue: seq<Tx>, keysets: seq<set<Addr>>, fate: Fate, n: nat): seq<Tx>
    requires n <= |keysets|
  {
    if n == 0 then []
    else Gone(queue, keysets, fate, n - 1) + WithFate(Left(queue, keysets, n - 1), keysets[n - 1], fate)
  }

  /** Run over all receivers, the broker split loses and duplicates nothing: the old queue is what
      is left, what was sent, and what becomes cross-shard. */
  lemma {:induction false} BrokerSplitKeepsAll(queue: seq<Tx>, keysets: seq<set<Addr>>, n: nat, x: Tx)
    requires n <= |keysets|
    ensures Occ(Left(queue, keysets, n), x) + Occ(Gone(queue, keysets, Sent, n), x)
          + Occ(Gone(queue, keysets, BecomesCross, n), x) == Occ(queue, x)
  {
    if n > 0 {
      BrokerSplitKeepsAll(queue, keysets, n - 1, x);
      var prev, keys := Left(queue, keysets, n - 1), keysets[n - 1];
      FatesKeepAll(prev, keys, x);
      OccConcat(Gone(queue, keysets, Sent, n - 1), WithFate(prev, keys, Sent), x);
      OccConcat(Gone(queue, keysets, BecomesCross, n - 1), WithFate(prev, keys, BecomesCross), x);
    }
  }

  function AllKeys(plan: Plan): (r: seq<set<Addr>>)
    ensures |r| == plan.cfg.shards && forall k :: 0 <= k < |r| ==> r[k] == KeysTo(plan, k)
  {
    seq(plan.cfg.shards, (k: nat) => KeysTo(plan, k))
  }

  lemma WithFateSnoc(queue: seq<Tx>, tx: Tx, keys: set<Addr>, fate: Fate)
    ensures WithFate(queue + [tx], keys, fate)
         == WithFate(queue, keys, fate) + if FateOf(tx, keys) == fate then [tx] else []
  {
    assert (queue + [tx])[..|queue + [tx]| - 1] == queue;
  }

  lemma WithFateStep(queue: seq<Tx>, tx: Tx, keys: set<Addr>, fate: Fate, before: bool)
    ensures WithFate(queue + if before then [] else [tx], keys, fate)
         == WithFate(queue, keys, fate) + if !before && FateOf(tx, keys) == fate then [tx] else []
  {
    if before {
      assert queue + [] == queue && WithFate(queue, keys, fate) + [] == WithFate(queue, keys, fate);
    } else {
      WithFateSnoc(queue, tx, keys, fate);
    }
  }

  /** At its receiver's turn a transaction meets its verdict; before, it stays. */
  lemma FateByMap(plan: Plan, tx: Tx, k: ShardId)
    requires plan.brokers && k < plan.cfg.shards && !Earlier(VerdictOf(plan, tx), k)
    ensures FateOf(tx, KeysTo(plan, k)) == Sent <==> VerdictOf(plan, tx) == ToShard(k)
    ensures FateOf(tx, KeysTo(plan, k)) == BecomesCross <==> VerdictOf(plan, tx) == Returned(k)
  {
  }

  lemma LeftStep(plan: Plan, longer: seq<Tx>, shorter: seq<Tx>, tx: Tx, k: nat)
    requires plan.brokers && k < plan.cfg.shards && OneMore(plan, longer, shorter, tx, k)
    ensures OneMore(plan, WithFate(longer, KeysTo(plan, k), Stays), WithFate(shorter, KeysTo(plan, k), Stays),
      tx, k + 1)
  {
    StaysByMap(plan, tx, k);
    WithFateStep(shorter, tx, KeysTo(plan, k), Stays, Earlier(VerdictOf(plan, tx), k));
  }

  lemma {:induction false} LeftSnoc(plan: Plan, queue: seq<Tx>, tx: Tx, k: nat)
    requires plan.brokers && k <= plan.cfg.shards
    ensures OneMore(plan, Left(queue + [tx], AllKeys(plan), k), Left(queue, AllKeys(plan), k), tx, k)
  {
    if k > 0 {
      var j := k - 1;
      var longer, shorter := Left(queue + [tx], AllKeys(plan), j), Left(queue, AllKeys(plan), j);
      LeftSnoc(plan, queue, tx, j);
      LeftStep(plan, longer, shorter, tx, j);
      assert Left(queue + [tx], AllKeys(plan), k) == WithFate(longer, KeysTo(plan, j), Stays);
      assert Left(queue, AllKeys(plan), k) == WithFate(shorter, KeysTo(plan, j), Stays);
    }
  }

  lemma StaysByMap(plan: Plan, tx: Tx, k: ShardId)
    requires plan.brokers && k < plan.cfg.shards
    ensures !Earlier(VerdictOf(plan, tx), k + 1)
        <==> !Earlier(VerdictOf(plan, tx), k) && FateOf(tx, KeysTo(plan, k)) == Stays
  {
    if !Earlier(VerdictOf(plan, tx), k) {
      FateByMap(plan, tx, k);
    }
  }

  lemma {:induction false} LeftOfNothing(plan: Plan, k: nat)
    requires k <= plan.cfg.shards
    ensures Left([], AllKeys(plan), k) == []
  {
    if k > 0 {
      LeftOfNothing(plan, k - 1);
    }
  }

  lemma GoneSnoc(plan: Plan, queue: seq<Tx>, tx: Tx, k: ShardId)
    requires plan.brokers && k < plan.cfg.shards
    ensures WithFate(Left(queue + [tx], AllKeys(plan), k), KeysTo(plan, k), Sent)
         == WithFate(Left(queue, AllKeys(plan), k), KeysTo(plan, k), Sent)
            + if VerdictOf(plan, tx) == ToShard(k) then [tx] else []
    ensures WithFate(Left(queue + [tx], AllKeys(plan), k), KeysTo(plan, k), BecomesCross)
         == WithFate(Left(queue, AllKeys(plan), k), KeysTo(plan, k), BecomesCross)
            + if VerdictOf(plan, tx) == Returned(k) then [tx] else []
  {
    var before := Earlier(VerdictOf(plan, tx), k);
    LeftSnoc(plan, queue, tx, k);
    WithFateStep(Left(queue, AllKeys(plan), k), tx, KeysTo(plan, k), Sent, before);
    WithFateStep(Left(queue, AllKeys(plan), k), tx, KeysTo(plan, k), BecomesCross, before);
    if !before {
      FateByMap(plan, tx, k);
    }
  }

  lemma {:induction false} LeftByMap(plan: Plan, queue: seq<Tx>)
    requires plan.brokers
    ensures Left(queue, AllKeys(plan), plan.cfg.shards) == With(plan, queue, Remains)
  {
    if queue == [] {
      LeftOfNothing(plan, plan.cfg.shards);
    } else {
      var init, tx := queue[..|queue| - 1], queue[|queue| - 1];
      assert queue == init + [tx];
      LeftByMap(plan, init);
      LeftSnoc(plan, init, tx, plan.cfg.shards);
      InRange(plan, tx);
    }
  }

  lemma {:induction false} GoneByMap(plan: Plan, queue: seq<Tx>, k: ShardId)
    requires plan.brokers && k < plan.cfg.shards
    ensures WithFate(Left(queue, AllKeys(plan), k), KeysTo(plan, k), Sent) == With(plan, queue, ToShard(k))
    ensures WithFate(Left(queue, AllKeys(plan), k), KeysTo(plan, k), BecomesCross) == With(plan, queue, Returned(k))
  {
    if queue == [] {
      LeftOfNothing(plan, k);
    } else {
      var init, tx := queue[..|queue| - 1], queue[|queue| - 1];
      assert queue == init + [tx];
      GoneByMap(plan, init, k);
      GoneSnoc(plan, init, tx, k);
    }
  }

  /** Over all receivers the broker split sends to shard `k` exactly what belongs to an account the last
      map moves there, hands back at `k`'s turn exactly the transactions without a broker whose first
      leaving account goes there, and leaves the rest, all in the order of the queue (`PartIsStable`). */
  lemma BrokerShippedByMap(plan: Plan, queue: seq<Tx>, k: ShardId)
    requires plan.brokers && k < plan.cfg.shards
    ensures WithFate(Left(queue, AllKeys(plan), k), AllKeys(plan)[k], Sent) == With(plan, queue, ToShard(k))
    ensures WithFate(Left(queue, AllKeys(plan), k), AllKeys(plan)[k], BecomesCross) == With(plan, queue, Returned(k))
    ensures Left(queue, AllKeys(plan), plan.cfg.shards) == With(plan, queue, Remains)
  {
    GoneByMap(plan, queue, k);
    LeftByMap(plan, queue);
  }

  /** The broker split is stable over all receivers. */
  lemma BrokerShippingIsStable(plan: Plan, queue: seq<Tx>, k: ShardId)
    returns (sent: seq<nat>, returned: seq<nat>, left: seq<nat>)
    requires plan.brokers && k < plan.cfg.shards
    ensures ListedBy(WithFate(Left(queue, AllKeys(plan), k), AllKeys(plan)[k], Sent), queue, sent)
    ensures ListedBy(WithFate(Left(queue, AllKeys(plan), k), AllKeys(plan)[k], BecomesCross), queue, returned)
    ensures ListedBy(Left(queue, AllKeys(plan), plan.cfg.shards), queue, left)
    ensures Selects(plan, sent, queue, ToShard(k)) && Selects(plan, returned, queue, Returned(k))
    ensures Selects(plan, left, queue, Remains)
  {
    BrokerShippedByMap(plan, queue, k);
    sent := PartIsStable(plan, queue, ToShard(k));
    returned := PartIsStable(plan, queue, Returned(k));
    left := PartIsStable(plan, queue, Remains);
  }
}
