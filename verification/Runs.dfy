/** What every reachable state satisfies, and what holds along every run. */
module Runs {
  import opened Basics
  import opened Ledger
  import opened Execution
  import opened Shards
  import opened Protocol
  import opened Rounds
  import opened RoundSteps
  import opened Places
  import opened PlaceSteps
  import opened Tally
  import opened TallySteps
  import opened Settlement

  ghost predicate Inv(cfg: Config, s: System) {
    InRounds(cfg, s) && Placed(cfg, s) && Tallied(cfg, s) && Settled(s.hist)
  }

  lemma InitialInv(cfg: Config, s: System)
    requires cfg.Valid() && Initial(cfg, s)
    ensures Inv(cfg, s)
  {
    InitialRounds(cfg, s);
    InitialPlaced(cfg, s);
    InitialTallied(cfg, s);
  }

  lemma StepInv(cfg: Config, s: System, step: Step)
    requires Inv(cfg, s) && Enabled(cfg, s, step)
    ensures Inv(cfg, Do(cfg, s, step))
  {
    StepRounds(cfg, s, step);
    StepPlaced(cfg, s, step);
    StepTallied(cfg, s, step);
    StepSettled(cfg, s, step);
  }

  lemma FollowsInv(cfg: Config, s: System, t: System)
    requires Inv(cfg, s) && Follows(cfg, s, t)
    ensures Inv(cfg, t)
  {
    var step :| Enabled(cfg, s, step) && Do(cfg, s, step) == t;
    StepInv(cfg, s, step);
  }

  lemma {:induction false} RunInv(cfg: Config, run: seq<System>, i: nat)
    requires cfg.Valid() && IsRun(cfg, run) && i < |run|
    ensures Inv(cfg, run[i])
  {
    if i == 0 {
      InitialInv(cfg, run[0]);
    } else {
      RunInv(cfg, run, i - 1);
      assert NextFollows(cfg, run, i - 1);
      FollowsInv(cfg, run[i - 1], run[i]);
    }
  }

  lemma ReachableInv(cfg: Config, s: System)
    requires cfg.Valid() && Reachable(cfg, s)
    ensures Inv(cfg, s)
  {
    var run :| IsRun(cfg, run) && run[|run| - 1] == s;
    RunInv(cfg, run, |run| - 1);
  }

  // ---------- Location ----------

  /** A queued transaction sits where the address that placed it has its home: under the maps the
      shard has shipped its accounts for. */
  lemma QueuedAtHome(cfg: Config, s: System, k: ShardId, tx: Tx)
    requires cfg.Valid() && Reachable(cfg, s) && k < |s.shards| && tx in s.shards[k].queue
    ensures Shipped(s.shards[k]) <= |s.sup.issued|
    ensures HomeOf(cfg, Overlay(s.sup.issued, Shipped(s.shards[k])),
      if tx.relayed then tx.recipient else tx.sender) == k
  {
    ReachableInv(cfg, s);
    PlacedShard(cfg, s, k);
    QueueTxAtHome(cfg, s.sup.issued, s.hist.ledger, s.shards[k], k, tx);
  }

  lemma QueueTxAtHome(cfg: Config, issued: seq<PartitionMap>, ledger: Accounts, sh: Shard, k: ShardId, tx: Tx)
    requires ShardPlaced(cfg, issued, ledger, sh, k) && tx in sh.queue
    ensures HomeOf(cfg, Overlay(issued, Shipped(sh)), Anchor(tx)) == k
  {
    assert AtHome(SiteAt(cfg, issued, Shipped(sh), k), tx);
  }

  /** The commit handler never meets a transaction it would panic on. */
  lemma NoIncorrectTx(cfg: Config, s: System, k: ShardId, tx: Tx)
    requires cfg.Valid() && Reachable(cfg, s) && k < |s.shards|
    requires s.shards[k].stage.BlockOpen? && tx in s.shards[k].stage.body
    ensures !IncorrectTx(SiteOf(cfg, s.shards[k], k), tx)
  {
    ReachableInv(cfg, s);
    BlockLedger(cfg, s, k);
    assert AtHome(SiteOf(cfg, s.shards[k], k), tx);
  }

  /** The partition proposer never meets a received transaction it would panic on, in whatever
      order it reads the received parcels. */
  lemma NoErrorTx(cfg: Config, s: System, k: ShardId, order: seq<ShardId>, tx: Tx)
    requires cfg.Valid() && Reachable(cfg, s) && Enabled(cfg, s, OpenPartitionStep(k, order))
    requires tx in MergedTxs(s.shards[k].received, order)
    ensures !ErrorTx(s.shards[k].maps[s.shards[k].round], k, tx)
  {
    ReachableInv(cfg, s);
    MapOfRound(cfg, s, k);
    MergedAreHome(cfg, s, k, order, tx);
  }

  lemma MapOfRound(cfg: Config, s: System, k: ShardId)
    requires InRounds(cfg, s) && k < |s.shards| && s.shards[k].stage.Collecting?
    ensures s.shards[k].round < |s.sup.issued| && s.shards[k].round < |s.shards[k].maps|
    ensures s.shards[k].maps[s.shards[k].round] == s.sup.issued[s.shards[k].round]
  {
    KnownShard(cfg, s.sup.issued, s.shards, k);
  }

  lemma MergedAreHome(cfg: Config, s: System, k: ShardId, order: seq<ShardId>, tx: Tx)
    requires Placed(cfg, s) && k < |s.shards| && s.shards[k].round < |s.sup.issued|
    requires (forall i :: i in order ==> i in s.shards[k].received) && tx in MergedTxs(s.shards[k].received, order)
    ensures !ErrorTx(s.sup.issued[s.shards[k].round], k, tx)
  {
    PlacedShard(cfg, s, k);
    MergedTxsAtHome(cfg, s.sup.issued, s.hist.ledger, s.shards[k], k, order);
  }

  // ---------- Maps ----------

  /** A shard's partition map is the overlay of the maps of the rounds it finished; once it has
      finished them all it looks addresses up exactly as the supervisor does. */
  lemma MapsAgree(cfg: Config, s: System, k: ShardId)
    requires cfg.Valid() && Reachable(cfg, s) && k < |s.shards|
    ensures s.shards[k].round <= |s.sup.issued| && s.shards[k].pmap == Overlay(s.sup.issued, s.shards[k].round)
    ensures s.shards[k].round == |s.sup.issued| ==> s.shards[k].pmap == s.sup.modifiedMap
    ensures forall j :: 0 <= j < |s.shards| && s.shards[j].round == s.shards[k].round ==>
      s.shards[j].pmap == s.shards[k].pmap
  {
    ReachableInv(cfg, s);
    KnownShard(cfg, s.sup.issued, s.shards, k);
    forall j | 0 <= j < |s.shards| && s.shards[j].round == s.shards[k].round
      ensures s.shards[j].pmap == s.shards[k].pmap
    {
      KnownShard(cfg, s.sup.issued, s.shards, j);
    }
  }

  /** No shard is ever more than one round ahead of another. */
  lemma RoundsClose(cfg: Config, s: System, i: ShardId, k: ShardId)
    requires cfg.Valid() && Reachable(cfg, s) && i < |s.shards| && k < |s.shards|
    ensures s.shards[i].round <= s.shards[k].round + 1
  {
    ReachableInv(cfg, s);
    KnownPair(s.shards, s.net, i, k);
  }

  // ---------- The quiescence barrier ----------

  /** `k` has counted `i`'s announcement of this round, and if it ever heard from `i`, then last the
      relay of `i`'s last number. */
  predicate HeardLast(s: System, i: ShardId, k: ShardId)
    requires i < |s.shards| && k < |s.shards|
  {
    i in s.shards[k].ready && (i in s.shards[k].heard ==> s.shards[k].heard[i] + 1 == s.shards[i].seqId)
  }

  /** The barrier passes if and only if every peer's announcement has arrived and the last relay
      received from a peer, if any, is that of its last number: such a peer has committed a block
      since its last partition. */
  lemma BarrierExactly(cfg: Config, s: System, k: ShardId)
    requires cfg.Valid() && Reachable(cfg, s) && k < |s.shards| && s.shards[k].stage.AwaitingReady?
    ensures PartitionReady(s.shards[k], cfg.shards) <==> forall i: nat :: i < |s.shards| && i != k ==>
      HeardLast(s, i, k)
  {
    ReachableInv(cfg, s);
    var sh := s.shards[k];
    KnownShard(cfg, s.sup.issued, s.shards, k);
    if PartitionReady(sh, cfg.shards) {
      forall i: nat | i < |s.shards| && i != k ensures HeardLast(s, i, k) {
        BarrierMeans(cfg, s, k, i);
      }
    }
    if forall i: nat :: i < |s.shards| && i != k ==> HeardLast(s, i, k) {
      forall i | i in sh.heard ensures i in sh.readySeq && sh.readySeq[i] == sh.heard[i] + 1 {
        assert HeardLast(s, i, k);
        KnownPair(s.shards, s.net, i, k);
      }
      forall i: nat ensures i in sh.ready <==> i < cfg.shards {
        assert i < cfg.shards && i != k ==> HeardLast(s, i, k);
      }
      CountsAll(sh.ready, cfg.shards);
    }
  }

  /** With more than one shard, a shard stops collecting exactly when every peer's parcel is there;
      then the map of the round it is in is there as well. */
  lemma CollectsExactly(cfg: Config, s: System, k: ShardId)
    requires cfg.Valid() && Reachable(cfg, s) && k < |s.shards| && s.shards[k].stage.Collecting? && cfg.shards > 1
    ensures s.shards[k].collectOver <==> forall i: nat :: i < |s.shards| && i != k ==> i in s.shards[k].received
    ensures s.shards[k].round < |s.shards[k].maps|
  {
    ReachableInv(cfg, s);
    var sh := s.shards[k];
    KnownShard(cfg, s.sup.issued, s.shards, k);
    if sh.collectOver {
      AllPeers(sh.received.Keys, k, cfg.shards);
    }
    if forall i: nat :: i < |s.shards| && i != k ==> i in sh.received {
      assert forall i: nat :: i in sh.received.Keys + {k} <==> i < cfg.shards;
      CountsAll(sh.received.Keys + {k}, cfg.shards);
    }
  }

  /** Between the two states shard `i` finished a round in which it had `k`'s parcel. */
  ghost predicate FinishedWith(cfg: Config, run: seq<System>, v: nat, i: ShardId, k: ShardId) {
    v + 1 < |run| && i < |run[v].shards|
    && run[v].shards[i].stage.PartitionOpen? && k in run[v].shards[i].received
    && Enabled(cfg, run[v], CommitPartitionStep(i)) && run[v + 1] == Do(cfg, run[v], CommitPartitionStep(i))
  }

  /** The shard a step works on. */
  function ActsOn(s: System, step: Step): Option<ShardId> {
    match step
    case DeliverStep(p) => if p < |s.net| && !s.net[p].BlockInfo? then Some(s.net[p].to) else None
    case InjectStep(_, _) => None
    case IssueMapStep(_) => None
    case _ => Some(step.id)
  }

  lemma SizeKept(cfg: Config, s: System, step: Step)
    requires Enabled(cfg, s, step)
    ensures |Do(cfg, s, step).shards| == |s.shards|
  {
    match step
    case DeliverStep(_) =>
    case ShipStep(_) =>
    case CommitBlockStep(_) =>
    case _ =>
  }

  lemma OthersUntouched(cfg: Config, s: System, step: Step, i: ShardId)
    requires Enabled(cfg, s, step) && i < |s.shards|
    ensures |Do(cfg, s, step).shards| == |s.shards|
    ensures ActsOn(s, step) != Some(i) ==> Do(cfg, s, step).shards[i] == s.shards[i]
  {
    match step
    case DeliverStep(_) =>
    case ShipStep(_) =>
    case CommitBlockStep(_) =>
    case _ =>
  }

  lemma FrozenShip(cfg: Config, sh: Shard, k: ShardId)
    requires sh.maps != []
    ensures Declared(Ship(cfg, sh, k)) && Ship(cfg, sh, k).seqId == sh.seqId
  {
  }

  lemma FrozenReceiver(cfg: Config, sh: Shard, pkt: Packet)
    ensures Declared(Received(cfg, sh, pkt)) == Declared(sh) && Received(cfg, sh, pkt).seqId == sh.seqId
  {
  }

  /** A shard that announced a round and does not finish it keeps its sequence number. */
  lemma FrozenActor(cfg: Config, s: System, step: Step, i: ShardId)
    requires Enabled(cfg, s, step) && i < |s.shards| && ActsOn(s, step) == Some(i) && Declared(s.shards[i])
    requires !step.CommitPartitionStep?
    ensures Declared(Do(cfg, s, step).shards[i]) && Do(cfg, s, step).shards[i].seqId == s.shards[i].seqId
  {
    match step
    case DeliverStep(p) => FrozenReceiver(cfg, s.shards[i], s.net[p]);
    case ShipStep(_) => FrozenShip(cfg, s.shards[i], i);
    case _ =>
  }

  lemma FrozenStep(cfg: Config, s: System, step: Step, i: ShardId, k: ShardId)
    requires Inv(cfg, s) && Enabled(cfg, s, step) && i < |s.shards| && k < |s.shards| && i != k
    requires Declared(s.shards[i])
    ensures |Do(cfg, s, step).shards| == |s.shards|
    ensures step == CommitPartitionStep(i) ==> k in s.shards[i].received
    ensures step != CommitPartitionStep(i) ==>
      Declared(Do(cfg, s, step).shards[i]) && Do(cfg, s, step).shards[i].seqId == s.shards[i].seqId
  {
    OthersUntouched(cfg, s, step, i);
    if step == CommitPartitionStep(i) {
      KnownShard(cfg, s.sup.issued, s.shards, i);
      AllReceived(cfg, s, i, k);
    } else if ActsOn(s, step) == Some(i) {
      FrozenActor(cfg, s, step, i);
    }
  }

  ghost predicate Frozen(before: Shard, now: Shard) {
    Declared(now) && now.seqId == before.seqId
  }

  lemma FrozenFollows(cfg: Config, run: seq<System>, u: nat, before: Shard, i: ShardId, k: ShardId)
    requires cfg.Valid() && IsRun(cfg, run) && u + 1 < |run|
    requires i < |run[u].shards| && k < |run[u].shards| && i != k && Frozen(before, run[u].shards[i])
    ensures |run[u + 1].shards| == |run[u].shards|
    ensures Frozen(before, run[u + 1].shards[i]) || FinishedWith(cfg, run, u, i, k)
  {
    RunInv(cfg, run, u);
    assert NextFollows(cfg, run, u);
    var step :| Enabled(cfg, run[u], step) && Do(cfg, run[u], step) == run[u + 1];
    FrozenStep(cfg, run[u], step, i, k);
  }

  lemma SizeFollows(cfg: Config, run: seq<System>, u: nat)
    requires IsRun(cfg, run) && u + 1 < |run|
    ensures |run[u + 1].shards| == |run[u].shards|
  {
    assert NextFollows(cfg, run, u);
    var step :| Enabled(cfg, run[u], step) && Do(cfg, run[u], step) == run[u + 1];
    SizeKept(cfg, run[u], step);
  }

  /** After `k` passed the barrier, a peer commits nothing until it finishes the round, and it
      finishes only with `k`'s parcel in hand. */
  lemma {:induction false} BarrierHolds(cfg: Config, run: seq<System>, t: nat, u: nat, k: ShardId, i: ShardId)
    requires cfg.Valid() && IsRun(cfg, run) && t <= u < |run|
    requires k < |run[t].shards| && i < |run[t].shards| && i != k
    requires run[t].shards[k].stage.AwaitingReady? && PartitionReady(run[t].shards[k], cfg.shards)
    ensures |run[u].shards| == |run[t].shards|
    ensures Frozen(run[t].shards[i], run[u].shards[i]) || exists v :: t <= v < u && FinishedWith(cfg, run, v, i, k)
    decreases u
  {
    if u == t {
      RunInv(cfg, run, t);
      BarrierMeans(cfg, run[t], k, i);
    } else {
      BarrierHolds(cfg, run, t, u - 1, k, i);
      SizeFollows(cfg, run, u - 1);
      if Frozen(run[t].shards[i], run[u - 1].shards[i]) {
        FrozenFollows(cfg, run, u - 1, run[t].shards[i], i, k);
      }
    }
  }
}
