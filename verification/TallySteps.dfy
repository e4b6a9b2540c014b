/** Every step keeps the tally of pending and executed transactions. */
module TallySteps {
  import opened Ledger
  import opened Execution
  import opened Shards
  import opened Protocol
  import opened Rounds
  import opened RoundSteps
  import opened Places
  import opened PlaceSteps
  import opened Tally

  lemma {:induction false} CarriedNothing(net: seq<Packet>, x: Tx)
    requires forall pkt :: pkt in net ==> TxsOf(pkt) == []
    ensures Carried(net, x) == 0
  {
    if net != [] {
      assert net[|net| - 1] in net;
      CarriedNothing(net[..|net| - 1], x);
    }
  }

  /** What is pending after shard `k` became `t` and the messages became `net`. */
  lemma PendingAfter(cfg: Config, s: System, s': System, k: ShardId, t: Shard, x: Tx)
    requires k < |s.shards| && s'.shards == s.shards[k := t]
    ensures Pending(cfg, s', x) + Held(s.shards[k], cfg.shards, x) + Carried(s.net, x)
         == Pending(cfg, s, x) + Held(t, cfg.shards, x) + Carried(s'.net, x)
  {
    HeldByAllUpdate(s.shards, k, t, cfg.shards, x);
  }

  lemma InjectBalanced(cfg: Config, s: System, k: ShardId, txs: seq<Tx>, x: Tx)
    requires Balanced(cfg, s, x) && Enabled(cfg, s, InjectStep(k, txs))
    ensures Balanced(cfg, Do(cfg, s, InjectStep(k, txs)), x)
  {
    CarriedSnoc(s.net, Inject(k, txs), x);
    OccConcat(s.hist.injected, txs, x);
  }

  lemma IssueMapBalanced(cfg: Config, s: System, m: PartitionMap, x: Tx)
    requires Balanced(cfg, s, x) && Enabled(cfg, s, IssueMapStep(m))
    ensures Balanced(cfg, Do(cfg, s, IssueMapStep(m)), x)
  {
    MapMsgsAre(m, cfg.shards);
    CarriedNothing(MapMsgs(m, cfg.shards), x);
    CarriedConcat(s.net, MapMsgs(m, cfg.shards), x);
  }

  /** A handler puts exactly the transactions of its message into the shard. */
  lemma ReceivedHolds(cfg: Config, s: Shard, pkt: Packet, x: Tx)
    requires !pkt.BlockInfo?
    requires pkt.Shipment? ==> pkt.from < cfg.shards && pkt.from !in s.received && !s.stage.PartitionOpen?
    ensures Held(Received(cfg, s, pkt), cfg.shards, x) == Held(s, cfg.shards, x) + Occ(TxsOf(pkt), x)
  {
    match pkt
    case Inject(_, txs) => OccConcat(s.queue, txs, x);
    case Relay(_, _, txs, _) => OccConcat(s.queue, txs, x);
    case Shipment(i, _, parcel) => ParcelOccInsert(s.received, i, parcel, cfg.shards, x);
    case _ =>
  }

  lemma DeliverBalanced(cfg: Config, s: System, p: nat, x: Tx)
    requires InRounds(cfg, s) && Balanced(cfg, s, x) && Deliverable(cfg, s, p)
    ensures Balanced(cfg, Deliver(cfg, s, p), x)
  {
    var pkt, t := s.net[p], Deliver(cfg, s, p);
    CarriedRemove(s.net, p, x);
    if !pkt.BlockInfo? {
      KnownPacket(s.shards, s.sup.issued, s.net, pkt);
      KnownShard(cfg, s.sup.issued, s.shards, pkt.to);
      if pkt.Shipment? {
        NotYetReceived(cfg, s, pkt);
      }
      ReceivedHolds(cfg, s.shards[pkt.to], pkt, x);
      PendingAfter(cfg, s, t, pkt.to, t.shards[pkt.to], x);
    }
  }

  lemma OpenBlockBalanced(cfg: Config, s: System, k: ShardId, size: nat, x: Tx)
    requires Balanced(cfg, s, x) && Enabled(cfg, s, OpenBlockStep(k, size))
    ensures Balanced(cfg, Do(cfg, s, OpenBlockStep(k, size)), x)
  {
    var sh, t := s.shards[k], Do(cfg, s, OpenBlockStep(k, size));
    assert sh.queue[..size] + sh.queue[size..] == sh.queue;
    OccConcat(sh.queue[..size], sh.queue[size..], x);
    PendingAfter(cfg, s, t, k, t.shards[k], x);
  }

  /** What a block's messages carry is what leaves the shard. */
  lemma BlockMsgsCarry(cfg: Config, sh: Shard, k: ShardId, body: seq<Tx>, x: Tx)
    requires cfg.Valid() && InRange(cfg, sh.pmap)
    ensures Carried(BlockMsgs(cfg, sh, k, body), x) == Occ(Leaving(SiteOf(cfg, sh, k), body), x)
  {
    RelayMsgsCarry(cfg, sh, k, body, cfg.shards, x);
    RelayedIsLeaving(SiteOf(cfg, sh, k), body, x);
    CarriedSnoc(RelayMsgs(cfg, sh, k, body, cfg.shards), BlockInfo(k, sh.round), x);
  }

  /** What a block at home adds to the counts: everything in the body leaves or is finished. */
  lemma BlockCounts(cfg: Config, s: System, k: ShardId, x: Tx)
    requires InRounds(cfg, s) && Placed(cfg, s) && Enabled(cfg, s, CommitBlockStep(k))
    ensures var sh, body := s.shards[k], s.shards[k].stage.body;
      Carried(BlockMsgs(cfg, sh, k, body), x) + Occ(Firsts(body), x) + Occ(Seconds(SiteOf(cfg, sh, k), body), x)
        == Occ(body, x) + Occ(MarkAll(Firsts(body)), x)
  {
    var sh := s.shards[k];
    KnownShard(cfg, s.sup.issued, s.shards, k);
    OverlayInRange(cfg, s.sup.issued, sh.round);
    BlockLedger(cfg, s, k);
    BlockMsgsCarry(cfg, sh, k, sh.stage.body, x);
    BodyTally(SiteOf(cfg, sh, k), sh.stage.body, x);
  }

  lemma FirstsGrow(first: seq<Tx>, more: seq<Tx>, x: Tx)
    ensures Occ(first + more, x) == Occ(first, x) + Occ(more, x)
    ensures Occ(MarkAll(first + more), x) == Occ(MarkAll(first), x) + Occ(MarkAll(more), x)
  {
    OccConcat(first, more, x);
    MarkAllConcat(first, more);
    OccConcat(MarkAll(first), MarkAll(more), x);
  }

  /** Committing a block takes its body away and puts its messages on their way. */
  lemma BlockPending(cfg: Config, s: System, k: ShardId, x: Tx)
    requires Enabled(cfg, s, CommitBlockStep(k))
    ensures Pending(cfg, Do(cfg, s, CommitBlockStep(k)), x) + Occ(s.shards[k].stage.body, x)
         == Pending(cfg, s, x) + Carried(BlockMsgs(cfg, s.shards[k], k, s.shards[k].stage.body), x)
  {
    var t := Do(cfg, s, CommitBlockStep(k));
    PendingAfter(cfg, s, t, k, t.shards[k], x);
    CarriedConcat(s.net, BlockMsgs(cfg, s.shards[k], k, s.shards[k].stage.body), x);
  }

  lemma CommitBlockBalanced(cfg: Config, s: System, k: ShardId, x: Tx)
    requires InRounds(cfg, s) && Placed(cfg, s) && Balanced(cfg, s, x) && Enabled(cfg, s, CommitBlockStep(k))
    ensures Balanced(cfg, Do(cfg, s, CommitBlockStep(k)), x)
  {
    var sh, t := s.shards[k], Do(cfg, s, CommitBlockStep(k));
    var site, body := SiteOf(cfg, sh, k), sh.stage.body;
    BlockCounts(cfg, s, k, x);
    BlockPending(cfg, s, k, x);
    FirstsGrow(s.hist.first, Firsts(body), x);
    OccConcat(s.hist.second, Seconds(site, body), x);
  }

  lemma DeclareReadyBalanced(cfg: Config, s: System, k: ShardId, x: Tx)
    requires Balanced(cfg, s, x) && Enabled(cfg, s, DeclareReadyStep(k))
    ensures Balanced(cfg, Do(cfg, s, DeclareReadyStep(k)), x)
  {
    var t, more := Do(cfg, s, DeclareReadyStep(k)), ReadyMsgs(s.shards[k], k, cfg.shards);
    ReadyMsgsAre(s.shards[k], k, cfg.shards);
    CarriedNothing(more, x);
    CarriedConcat(s.net, more, x);
    PendingAfter(cfg, s, t, k, t.shards[k], x);
  }

  lemma ShipBalanced(cfg: Config, s: System, k: ShardId, x: Tx)
    requires Balanced(cfg, s, x) && Enabled(cfg, s, ShipStep(k))
    ensures Balanced(cfg, Do(cfg, s, ShipStep(k)), x)
  {
    var t := Do(cfg, s, ShipStep(k));
    ShippingKeepsAll(cfg, s.shards[k], k, x);
    CarriedConcat(s.net, Shipments(Parcels(cfg, s.shards[k], k), k, cfg.shards), x);
    PendingAfter(cfg, s, t, k, t.shards[k], x);
  }

  lemma OpenPartitionBalanced(cfg: Config, s: System, k: ShardId, order: seq<ShardId>, x: Tx)
    requires InRounds(cfg, s) && Balanced(cfg, s, x) && Enabled(cfg, s, OpenPartitionStep(k, order))
    ensures Balanced(cfg, Do(cfg, s, OpenPartitionStep(k, order)), x)
  {
    var sh, t := s.shards[k], Do(cfg, s, OpenPartitionStep(k, order));
    KnownShard(cfg, s.sup.issued, s.shards, k);
    MergedIsAll(sh.received, order, cfg.shards, x);
    assert Elements(order) == sh.received.Keys;
    OccConcat(sh.queue, MergedTxs(sh.received, order), x);
    PendingAfter(cfg, s, t, k, t.shards[k], x);
  }

  lemma CommitPartitionBalanced(cfg: Config, s: System, k: ShardId, x: Tx)
    requires Balanced(cfg, s, x) && Enabled(cfg, s, CommitPartitionStep(k))
    ensures Balanced(cfg, Do(cfg, s, CommitPartitionStep(k)), x)
  {
    var t := Do(cfg, s, CommitPartitionStep(k));
    ParcelOccNone(t.shards[k].received, cfg.shards, x);
    assert t.shards[k].received.Keys == {};
    PendingAfter(cfg, s, t, k, t.shards[k], x);
  }

  lemma StepBalanced(cfg: Config, s: System, step: Step, x: Tx)
    requires InRounds(cfg, s) && Placed(cfg, s) && Balanced(cfg, s, x) && Enabled(cfg, s, step)
    ensures Balanced(cfg, Do(cfg, s, step), x)
  {
    match step
    case InjectStep(k, txs) => InjectBalanced(cfg, s, k, txs, x);
    case IssueMapStep(m) => IssueMapBalanced(cfg, s, m, x);
    case DeliverStep(p) => DeliverBalanced(cfg, s, p, x);
    case OpenBlockStep(k, size) => OpenBlockBalanced(cfg, s, k, size, x);
    case CommitBlockStep(k) => CommitBlockBalanced(cfg, s, k, x);
    case DeclareReadyStep(k) => DeclareReadyBalanced(cfg, s, k, x);
    case ShipStep(k) => ShipBalanced(cfg, s, k, x);
    case OpenPartitionStep(k, order) => OpenPartitionBalanced(cfg, s, k, order, x);
    case CommitPartitionStep(k) => CommitPartitionBalanced(cfg, s, k, x);
  }

  lemma {:induction false} BodyMarks(site: Site, body: seq<Tx>)
    ensures forall tx :: tx in Firsts(body) ==> !tx.relayed
    ensures forall tx :: tx in Seconds(site, body) ==> tx.relayed
  {
    if body != [] {
      BodyMarks(site, body[..|body| - 1]);
    }
  }

  lemma StepMarked(cfg: Config, s: System, step: Step)
    requires PhasesMarked(s.hist) && Enabled(cfg, s, step)
    ensures PhasesMarked(Do(cfg, s, step).hist)
  {
    if step.CommitBlockStep? {
      var sh := s.shards[step.id];
      BodyMarks(SiteOf(cfg, sh, step.id), sh.stage.body);
    }
  }

  lemma StepTallied(cfg: Config, s: System, step: Step)
    requires InRounds(cfg, s) && Placed(cfg, s) && Tallied(cfg, s) && Enabled(cfg, s, step)
    ensures Tallied(cfg, Do(cfg, s, step))
  {
    forall x ensures Balanced(cfg, Do(cfg, s, step), x) {
      StepBalanced(cfg, s, step, x);
    }
    StepMarked(cfg, s, step);
  }

  lemma {:induction false} NothingHeld(shards: seq<Shard>, n: nat, x: Tx)
    requires forall k :: 0 <= k < |shards| ==> shards[k] == FRESH_SHARD
    ensures HeldByAll(shards, n, x) == 0
  {
    if shards != [] {
      NothingHeld(shards[..|shards| - 1], n, x);
      ParcelOccNone(FRESH_SHARD.received, n, x);
      assert FRESH_SHARD.received.Keys == {};
    }
  }

  lemma InitialTallied(cfg: Config, s: System)
    requires Initial(cfg, s)
    ensures Tallied(cfg, s)
  {
    forall x ensures Balanced(cfg, s, x) {
      NothingHeld(s.shards, cfg.shards, x);
    }
  }
}
