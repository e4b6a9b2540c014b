/**
 What passing the barrier means without any assumption on who was heard from: exactly the peers
 that were heard from, or that have committed no block, have no relay on its way.
 */
module Barrier {
  import opened Basics
  import opened Ledger
  import opened Shards
  import opened Protocol
  import opened Rounds
  import opened RoundSteps
  import opened Runs

  ghost predicate RelayUnderway(net: seq<Packet>, i: ShardId, k: ShardId) {
    exists pkt :: pkt in net && pkt.Relay? && pkt.from == i && pkt.to == k
  }

  /** A peer that was heard from has committed a block, and the relay of a peer that has committed one
      but was not heard from is on its way. */
  ghost predicate HearPair(s: System, i: ShardId, k: ShardId)
    requires k < |s.shards|
  {
    (i in s.shards[k].heard ==> i in s.hist.committed)
    && (i in s.hist.committed && i !in s.shards[k].heard ==> RelayUnderway(s.net, i, k))
  }

  ghost predicate HearsOk(s: System) {
    forall i: nat, k: nat :: i < |s.shards| && k < |s.shards| && i != k ==> HearPair(s, i, k)
  }

  lemma {:induction false} RelayMsgsHas(cfg: Config, s: Shard, id: ShardId, body: seq<Tx>, n: nat, k: ShardId)
    requires k < n && k != id
    ensures RelayUnderway(RelayMsgs(cfg, s, id, body, n), id, k)
  {
    var last := Relay(id, n - 1, RelayTxs(cfg, s.pmap, body, n - 1), s.seqId);
    if k == n - 1 {
      assert last in RelayMsgs(cfg, s, id, body, n);
    } else {
      RelayMsgsHas(cfg, s, id, body, n - 1, k);
      var pkt :| pkt in RelayMsgs(cfg, s, id, body, n - 1) && pkt.Relay? && pkt.from == id && pkt.to == k;
      assert pkt in RelayMsgs(cfg, s, id, body, n);
    }
  }

  lemma MoreUnderway(net: seq<Packet>, more: seq<Packet>, i: ShardId, k: ShardId)
    requires RelayUnderway(net, i, k)
    ensures RelayUnderway(net + more, i, k)
  {
    var pkt :| pkt in net && pkt.Relay? && pkt.from == i && pkt.to == k;
    assert pkt in net + more;
  }

  lemma StillUnderway(net: seq<Packet>, p: nat, i: ShardId, k: ShardId)
    requires RelayUnderway(net, i, k) && p < |net| && !(net[p].Relay? && net[p].from == i && net[p].to == k)
    ensures RelayUnderway(RemoveAt(net, p), i, k)
  {
    var pkt :| pkt in net && pkt.Relay? && pkt.from == i && pkt.to == k;
    assert pkt in multiset(net) && pkt != net[p];
    assert pkt in multiset(RemoveAt(net, p));
  }

  /** A step that delivers nothing lets every shard keep whom it heard from, and takes no message away. */
  lemma QuietStep(cfg: Config, s: System, step: Step, k: ShardId)
    requires Enabled(cfg, s, step) && !step.DeliverStep? && k < |s.shards|
    ensures var t := Do(cfg, s, step);
      |t.shards| == |s.shards| && t.shards[k].heard == s.shards[k].heard && s.net <= t.net
      && t.hist.committed == if step.CommitBlockStep? then s.hist.committed + {step.id} else s.hist.committed
  {
    SizeKept(cfg, s, step);
    match step
    case ShipStep(_) =>
    case CommitBlockStep(_) =>
    case _ =>
  }

  lemma QuietHears(cfg: Config, s: System, step: Step, i: ShardId, k: ShardId)
    requires InRounds(cfg, s) && Enabled(cfg, s, step) && !step.DeliverStep?
    requires i < |s.shards| && k < |s.shards| && i != k && HearPair(s, i, k)
    ensures k < |Do(cfg, s, step).shards| && HearPair(Do(cfg, s, step), i, k)
  {
    var t := Do(cfg, s, step);
    QuietStep(cfg, s, step, k);
    assert t.net == s.net + t.net[|s.net|..];
    if RelayUnderway(s.net, i, k) {
      MoreUnderway(s.net, t.net[|s.net|..], i, k);
    }
    if step == CommitBlockStep(i) {
      CommitIsUnderway(cfg, s, i, k);
    }
  }

  lemma CommitIsUnderway(cfg: Config, s: System, i: ShardId, k: ShardId)
    requires InRounds(cfg, s) && Enabled(cfg, s, CommitBlockStep(i)) && k < |s.shards| && i != k
    ensures RelayUnderway(Do(cfg, s, CommitBlockStep(i)).net, i, k)
  {
    var relays := RelayMsgs(cfg, s.shards[i], i, s.shards[i].stage.body, cfg.shards);
    RelayMsgsHas(cfg, s.shards[i], i, s.shards[i].stage.body, cfg.shards, k);
    var pkt :| pkt in relays && pkt.Relay? && pkt.from == i && pkt.to == k;
    assert pkt in Do(cfg, s, CommitBlockStep(i)).net;
  }

  lemma DeliverHears(cfg: Config, s: System, p: nat, i: ShardId, k: ShardId)
    requires InRounds(cfg, s) && Deliverable(cfg, s, p)
    requires i < |s.shards| && k < |s.shards| && i != k && HearPair(s, i, k)
    ensures k < |Deliver(cfg, s, p).shards| && HearPair(Deliver(cfg, s, p), i, k)
  {
    var pkt := s.net[p];
    if pkt.Relay? && pkt.from == i && pkt.to == k {
      assert pkt in s.net;
    } else if RelayUnderway(s.net, i, k) {
      StillUnderway(s.net, p, i, k);
    }
  }

  lemma FollowsHears(cfg: Config, s: System, t: System)
    requires InRounds(cfg, s) && HearsOk(s) && Follows(cfg, s, t)
    ensures HearsOk(t)
  {
    var step :| Enabled(cfg, s, step) && Do(cfg, s, step) == t;
    SizeKept(cfg, s, step);
    forall i: nat, k: nat | i < |t.shards| && k < |t.shards| && i != k ensures HearPair(t, i, k) {
      assert HearPair(s, i, k);
      if step.DeliverStep? {
        DeliverHears(cfg, s, step.p, i, k);
      } else {
        QuietHears(cfg, s, step, i, k);
      }
    }
  }

  lemma {:induction false} RunHears(cfg: Config, run: seq<System>, i: nat)
    requires cfg.Valid() && IsRun(cfg, run) && i < |run|
    ensures HearsOk(run[i])
  {
    if i > 0 {
      RunHears(cfg, run, i - 1);
      InRoundsAt(cfg, run, i - 1);
      assert NextFollows(cfg, run, i - 1);
      FollowsHears(cfg, run[i - 1], run[i]);
    }
  }

  /** The quiescence barrier and its exact condition: in every reachable state in which the barrier
      passes at `k`, a peer has announced the same round, and no relay of it is on its way to `k` if
      and only if `k` has heard from it or it has committed no block yet. */
  lemma BarrierIsQuiet(cfg: Config, s: System, k: ShardId, i: ShardId)
    requires cfg.Valid() && Reachable(cfg, s) && k < |s.shards| && i < |s.shards| && i != k
    requires s.shards[k].stage.AwaitingReady? && PartitionReady(s.shards[k], cfg.shards)
    ensures !RelayUnderway(s.net, i, k) <==> i in s.shards[k].heard || i !in s.hist.committed
    ensures s.shards[i].round == s.shards[k].round && Declared(s.shards[i])
  {
    ReachableInv(cfg, s);
    BarrierMeans(cfg, s, k, i);
    var run :| IsRun(cfg, run) && run[|run| - 1] == s;
    RunHears(cfg, run, |run| - 1);
    assert HearPair(s, i, k);
  }

  // ---------- A lost announcement ----------

  /** `i` has announced the round `k` is in, and `k` neither has nor will get that announcement. */
  ghost predicate Lost(s: System, i: ShardId, k: ShardId) {
    i < |s.shards| && k < |s.shards| && i != k
    && i !in s.shards[k].ready && Count(s.net, ReadyTag(i, k)) == 0
    && Declared(s.shards[i]) && s.shards[i].round == s.shards[k].round == Shipped(s.shards[k])
  }

  lemma LostIsClosed(cfg: Config, s: System, i: ShardId, k: ShardId)
    requires InRounds(cfg, s) && Lost(s, i, k)
    ensures !PartitionReady(s.shards[k], cfg.shards)
    ensures !s.shards[i].collectOver && !s.shards[i].stage.PartitionOpen?
  {
    KnownShard(cfg, s.sup.issued, s.shards, k);
    KnownShard(cfg, s.sup.issued, s.shards, i);
    if |s.shards[k].ready| == cfg.shards {
      FullSet(s.shards[k].ready, cfg.shards);
    }
    if s.shards[i].collectOver {
      CollectedMeans(cfg, s, i, k);
    }
  }

  /** The receiver is about to finish the previous round after the announcement arrived. */
  ghost predicate Erasing(cfg: Config, s: System, i: ShardId, k: ShardId) {
    Enabled(cfg, s, CommitPartitionStep(k)) && i < |s.shards| && i != k
    && Declared(s.shards[i]) && s.shards[i].round == s.shards[k].round + 1 && Count(s.net, ReadyTag(i, k)) == 0
  }

  /** Finishing erases the announcement, and it is lost. */
  lemma FinishingLoses(cfg: Config, s: System, i: ShardId, k: ShardId)
    requires InRounds(cfg, s) && Erasing(cfg, s, i, k)
    ensures Lost(Do(cfg, s, CommitPartitionStep(k)), i, k)
  {
    KnownShard(cfg, s.sup.issued, s.shards, k);
  }

  /** The messages a step adds hold no announcement of a shard that already announced. */
  lemma NoNewAnnouncement(cfg: Config, s: System, step: Step, i: ShardId, k: ShardId)
    requires InRounds(cfg, s) && Enabled(cfg, s, step) && i < |s.shards| && Declared(s.shards[i])
    ensures Count(Do(cfg, s, step).net, ReadyTag(i, k)) <= Count(s.net, ReadyTag(i, k))
  {
    var tag := ReadyTag(i, k);
    match step
    case InjectStep(id, txs) => CountSnoc(s.net, Inject(id, txs), tag);
    case IssueMapStep(m) =>
      CountConcat(s.net, MapMsgs(m, cfg.shards), tag);
      MapMsgsCount(m, cfg.shards, tag);
    case DeliverStep(p) => CountRemove(s.net, p, tag);
    case CommitBlockStep(id) =>
      CountConcat(s.net, BlockMsgs(cfg, s.shards[id], id, s.shards[id].stage.body), tag);
      BlockMsgsCount(cfg, s.shards[id], id, s.shards[id].stage.body, tag);
    case DeclareReadyStep(id) =>
      CountConcat(s.net, ReadyMsgs(s.shards[id], id, cfg.shards), tag);
      ReadyMsgsCount(s.shards[id], id, cfg.shards, tag);
    case ShipStep(id) => NoReadyShipped(cfg, s, id, Parcels(cfg, s.shards[id], id), tag);
    case _ =>
  }

  lemma NoReadyShipped(cfg: Config, s: System, id: ShardId, parcels: seq<Parcel>, tag: Tag)
    requires |parcels| == cfg.shards && tag.ReadyTag?
    ensures Count(s.net + Shipments(parcels, id, cfg.shards), tag) == Count(s.net, tag)
  {
    CountConcat(s.net, Shipments(parcels, id, cfg.shards), tag);
    ShipmentsCount(parcels, id, cfg.shards, tag);
  }

  /** `now` has not taken `i`'s announcement, and is in the round `was` is in. */
  predicate Deaf(was: Shard, now: Shard, i: ShardId) {
    i !in now.ready && now.round == was.round == Shipped(now)
  }

  lemma DeafDeliver(cfg: Config, sh: Shard, pkt: Packet, i: ShardId)
    requires Deaf(sh, sh, i) && !(pkt.Ready? && pkt.from == i)
    ensures Deaf(sh, Received(cfg, sh, pkt), i)
  {
  }

  lemma DeafLeader(cfg: Config, s: System, step: Step, i: ShardId, k: ShardId)
    requires Enabled(cfg, s, step) && !step.DeliverStep? && ActsOn(s, step) == Some(k)
    requires k < |s.shards| && i != k && Deaf(s.shards[k], s.shards[k], i)
    requires !step.ShipStep? && !step.OpenPartitionStep? && !step.CommitPartitionStep?
    ensures k < |Do(cfg, s, step).shards| && Deaf(s.shards[k], Do(cfg, s, step).shards[k], i)
  {
    match step
    case CommitBlockStep(_) =>
    case _ =>
  }

  lemma ReceiverStays(cfg: Config, s: System, step: Step, i: ShardId, k: ShardId)
    requires InRounds(cfg, s) && Enabled(cfg, s, step) && Lost(s, i, k) && ActsOn(s, step) == Some(k)
    ensures k < |Do(cfg, s, step).shards| && Deaf(s.shards[k], Do(cfg, s, step).shards[k], i)
  {
    LostIsClosed(cfg, s, i, k);
    if step.DeliverStep? {
      NoReadyArrives(s, i, k, step.p);
      DeafDeliver(cfg, s.shards[k], s.net[step.p], i);
    } else {
      DeafLeader(cfg, s, step, i, k);
    }
  }

  lemma NoReadyArrives(s: System, i: ShardId, k: ShardId, p: nat)
    requires p < |s.net| && Count(s.net, ReadyTag(i, k)) == 0
    ensures !(s.net[p].Ready? && s.net[p].from == i && s.net[p].to == k)
  {
    if TagOf(s.net[p]) == ReadyTag(i, k) {
      CountIn(s.net, s.net[p]);
    }
  }

  lemma SenderStays(cfg: Config, s: System, step: Step, i: ShardId, k: ShardId)
    requires InRounds(cfg, s) && Enabled(cfg, s, step) && Lost(s, i, k) && ActsOn(s, step) == Some(i)
    ensures |Do(cfg, s, step).shards| == |s.shards|
    ensures Declared(Do(cfg, s, step).shards[i]) && Do(cfg, s, step).shards[i].round == s.shards[i].round
  {
    SizeKept(cfg, s, step);
    LostIsClosed(cfg, s, i, k);
    if step.DeliverStep? {
      FrozenReceiver(cfg, s.shards[i], s.net[step.p]);
      ReceiverKeepsRound(cfg, s.shards[i], s.net[step.p]);
    } else {
      SenderLeads(cfg, s, step, i);
    }
  }

  lemma ReceiverKeepsRound(cfg: Config, sh: Shard, pkt: Packet)
    ensures Received(cfg, sh, pkt).round == sh.round
  {
  }

  lemma SenderLeads(cfg: Config, s: System, step: Step, i: ShardId)
    requires Enabled(cfg, s, step) && ActsOn(s, step) == Some(i) && !step.DeliverStep? && i < |s.shards|
    requires Declared(s.shards[i]) && !s.shards[i].stage.PartitionOpen?
    ensures i < |Do(cfg, s, step).shards|
    ensures Declared(Do(cfg, s, step).shards[i]) && Do(cfg, s, step).shards[i].round == s.shards[i].round
  {
    match step
    case ShipStep(_) => FrozenShip(cfg, s.shards[i], i);
    case _ =>
  }

  lemma StepLost(cfg: Config, s: System, step: Step, i: ShardId, k: ShardId)
    requires InRounds(cfg, s) && Enabled(cfg, s, step) && Lost(s, i, k)
    ensures Lost(Do(cfg, s, step), i, k)
  {
    SizeKept(cfg, s, step);
    NoNewAnnouncement(cfg, s, step, i, k);
    OthersUntouched(cfg, s, step, i);
    OthersUntouched(cfg, s, step, k);
    if ActsOn(s, step) == Some(i) {
      SenderStays(cfg, s, step, i, k);
    } else if ActsOn(s, step) == Some(k) {
      ReceiverStays(cfg, s, step, i, k);
    }
  }

  lemma FollowsLost(cfg: Config, s: System, t: System, i: ShardId, k: ShardId)
    requires InRounds(cfg, s) && Follows(cfg, s, t) && Lost(s, i, k)
    ensures Lost(t, i, k)
  {
    var step :| Enabled(cfg, s, step) && Do(cfg, s, step) == t;
    StepLost(cfg, s, step, i, k);
  }

  lemma {:induction false} LostStays(cfg: Config, run: seq<System>, t: nat, u: nat, i: ShardId, k: ShardId)
    requires cfg.Valid() && IsRun(cfg, run) && t <= u < |run| && Lost(run[t], i, k)
    ensures Lost(run[u], i, k)
    decreases u
  {
    if t < u {
      LostStays(cfg, run, t, u - 1, i, k);
      NextLost(cfg, run, u - 1, i, k);
    }
  }

  lemma NextLost(cfg: Config, run: seq<System>, t: nat, i: ShardId, k: ShardId)
    requires cfg.Valid() && IsRun(cfg, run) && t + 1 < |run| && Lost(run[t], i, k)
    ensures Lost(run[t + 1], i, k)
  {
    assert NextFollows(cfg, run, t);
    InRoundsAt(cfg, run, t);
    FollowsLost(cfg, run[t], run[t + 1], i, k);
  }

  lemma InRoundsAt(cfg: Config, run: seq<System>, i: nat)
    requires cfg.Valid() && IsRun(cfg, run) && i < |run|
    ensures InRounds(cfg, run[i])
  {
    RunInv(cfg, run, i);
  }

  /** Once an announcement is lost, the barrier stays closed at its receiver in every later state. */
  lemma LostForever(cfg: Config, run: seq<System>, t: nat, u: nat, i: ShardId, k: ShardId)
    requires cfg.Valid() && IsRun(cfg, run) && t <= u < |run| && Lost(run[t], i, k)
    ensures Lost(run[u], i, k) && !PartitionReady(run[u].shards[k], cfg.shards)
  {
    LostStays(cfg, run, t, u, i, k);
    InRoundsAt(cfg, run, u);
    LostIsClosed(cfg, run[u], i, k);
  }

  // ---------- Nothing else loses one ----------

  /** Announcing puts the announcement on its way. */
  lemma DeclaringIsUnderway(cfg: Config, s: System, i: ShardId, k: ShardId)
    requires InRounds(cfg, s) && Enabled(cfg, s, DeclareReadyStep(i)) && k < |s.shards| && i != k
    ensures Count(Do(cfg, s, DeclareReadyStep(i)).net, ReadyTag(i, k)) > 0
  {
    CountConcat(s.net, ReadyMsgs(s.shards[i], i, cfg.shards), ReadyTag(i, k));
    ReadyMsgsCount(s.shards[i], i, cfg.shards, ReadyTag(i, k));
  }

  lemma DeliveringIsNoLoss(cfg: Config, s: System, p: nat, i: ShardId, k: ShardId)
    requires InRounds(cfg, s) && Deliverable(cfg, s, p) && Lost(Deliver(cfg, s, p), i, k)
    ensures Lost(s, i, k)
  {
    CountRemove(s.net, p, ReadyTag(i, k));
    var pkt := s.net[p];
    if !pkt.BlockInfo? {
      FrozenReceiver(cfg, s.shards[pkt.to], pkt);
    }
  }

  /** A step that delivers nothing takes no message away. */
  lemma CountsStay(cfg: Config, s: System, step: Step, tag: Tag)
    requires Enabled(cfg, s, step) && !step.DeliverStep?
    ensures Count(s.net, tag) <= Count(Do(cfg, s, step).net, tag)
  {
    match step
    case InjectStep(id, txs) => CountConcat(s.net, [Inject(id, txs)], tag);
    case IssueMapStep(m) => CountConcat(s.net, MapMsgs(m, cfg.shards), tag);
    case CommitBlockStep(id) =>
      CountConcat(s.net, BlockMsgs(cfg, s.shards[id], id, s.shards[id].stage.body), tag);
    case DeclareReadyStep(id) => CountConcat(s.net, ReadyMsgs(s.shards[id], id, cfg.shards), tag);
    case ShipStep(id) => CountConcat(s.net, Shipments(Parcels(cfg, s.shards[id], id), id, cfg.shards), tag);
    case _ =>
  }

  /** What a leader's step that commits no request does to a shard's part in a round. */
  predicate Proceeds(x: Shard, y: Shard) {
    y.round == x.round && x.ready <= y.ready && Shipped(x) <= Shipped(y)
  }

  lemma LeaderProceeds(cfg: Config, s: System, step: Step, i: ShardId)
    requires Enabled(cfg, s, step) && !step.DeliverStep? && !step.CommitPartitionStep? && i < |s.shards|
    ensures i < |Do(cfg, s, step).shards| && Proceeds(s.shards[i], Do(cfg, s, step).shards[i])
    ensures step != DeclareReadyStep(i) ==> Declared(Do(cfg, s, step).shards[i]) == Declared(s.shards[i])
  {
    OthersUntouched(cfg, s, step, i);
    match step
    case CommitBlockStep(_) =>
    case ShipStep(_) =>
    case _ =>
  }

  /** A leader's step that is no announcement of `i` and no commit of a request. */
  lemma LeaderIsNoLoss(cfg: Config, s: System, step: Step, i: ShardId, k: ShardId)
    requires Enabled(cfg, s, step) && !step.DeliverStep? && !step.CommitPartitionStep?
    requires step != DeclareReadyStep(i) && Lost(Do(cfg, s, step), i, k)
    ensures Lost(s, i, k)
  {
    SizeKept(cfg, s, step);
    CountsStay(cfg, s, step, ReadyTag(i, k));
    LeaderProceeds(cfg, s, step, i);
    LeaderProceeds(cfg, s, step, k);
  }

  /** `i` finishing a round leaves it without an announcement. */
  lemma FinishingIsNoAnnouncement(cfg: Config, s: System, id: ShardId, i: ShardId, k: ShardId)
    requires InRounds(cfg, s) && Enabled(cfg, s, CommitPartitionStep(id)) && id != k
    requires Lost(Do(cfg, s, CommitPartitionStep(id)), i, k)
    ensures Lost(s, i, k)
  {
  }

  /** The last commit before a loss was the erasing one. */
  lemma FinishingWasErasing(cfg: Config, s: System, i: ShardId, k: ShardId)
    requires InRounds(cfg, s) && Enabled(cfg, s, CommitPartitionStep(k))
    requires Lost(Do(cfg, s, CommitPartitionStep(k)), i, k)
    ensures Erasing(cfg, s, i, k)
  {
    KnownShard(cfg, s.sup.issued, s.shards, k);
  }

  lemma LossWasErasing(cfg: Config, s: System, step: Step, i: ShardId, k: ShardId)
    requires InRounds(cfg, s) && Enabled(cfg, s, step) && Lost(Do(cfg, s, step), i, k)
    ensures Lost(s, i, k) || (step == CommitPartitionStep(k) && Erasing(cfg, s, i, k))
  {
    SizeKept(cfg, s, step);
    if step == DeclareReadyStep(i) {
      DeclaringIsUnderway(cfg, s, i, k);
    } else if step.DeliverStep? {
      DeliveringIsNoLoss(cfg, s, step.p, i, k);
    } else if step == CommitPartitionStep(k) {
      FinishingWasErasing(cfg, s, i, k);
    } else if step.CommitPartitionStep? {
      FinishingIsNoAnnouncement(cfg, s, step.id, i, k);
    } else {
      LeaderIsNoLoss(cfg, s, step, i, k);
    }
  }

  /** At `t` shard `k` commits its partition request although `i`'s next announcement has arrived. */
  ghost predicate ErasesAt(cfg: Config, run: seq<System>, t: nat, i: ShardId, k: ShardId) {
    t + 1 < |run| && Erasing(cfg, run[t], i, k) && run[t + 1] == Do(cfg, run[t], CommitPartitionStep(k))
  }

  lemma FollowsLoses(cfg: Config, run: seq<System>, t: nat, i: ShardId, k: ShardId)
    requires cfg.Valid() && IsRun(cfg, run) && t + 1 < |run| && Lost(run[t + 1], i, k)
    ensures Lost(run[t], i, k) || ErasesAt(cfg, run, t, i, k)
  {
    InRoundsAt(cfg, run, t);
    assert NextFollows(cfg, run, t);
    var step :| Enabled(cfg, run[t], step) && Do(cfg, run[t], step) == run[t + 1];
    LossWasErasing(cfg, run[t], step, i, k);
  }

  lemma {:induction false} LossWasErased(cfg: Config, run: seq<System>, u: nat, i: ShardId, k: ShardId)
    requires cfg.Valid() && IsRun(cfg, run) && u < |run| && Lost(run[u], i, k)
    ensures exists t :: 0 <= t < u && ErasesAt(cfg, run, t, i, k)
  {
    if u > 0 {
      FollowsLoses(cfg, run, u - 1, i, k);
      if Lost(run[u - 1], i, k) {
        LossWasErased(cfg, run, u - 1, i, k);
      }
    }
  }

  lemma ErasedIsLost(cfg: Config, run: seq<System>, t: nat, u: nat, i: ShardId, k: ShardId)
    requires cfg.Valid() && IsRun(cfg, run) && t < u < |run| && ErasesAt(cfg, run, t, i, k)
    ensures Lost(run[u], i, k)
  {
    InRoundsAt(cfg, run, t);
    FinishingLoses(cfg, run[t], i, k);
    LostStays(cfg, run, t + 1, u, i, k);
  }

  /** In every run an announcement is lost if and only if its receiver committed, at some earlier step, the
      partition request of the previous round after the announcement had arrived; and while one is lost, the
      barrier does not pass at the receiver, so that it never passes there again (`LostForever`). */
  lemma LostExactly(cfg: Config, run: seq<System>, u: nat, i: ShardId, k: ShardId)
    requires cfg.Valid() && IsRun(cfg, run) && u < |run|
    ensures Lost(run[u], i, k) <==> exists t :: 0 <= t < u && ErasesAt(cfg, run, t, i, k)
    ensures Lost(run[u], i, k) ==> !PartitionReady(run[u].shards[k], cfg.shards)
  {
    if t: nat :| t < u && ErasesAt(cfg, run, t, i, k) {
      ErasedIsLost(cfg, run, t, u, i, k);
    }
    if Lost(run[u], i, k) {
      LossWasErased(cfg, run, u, i, k);
      LostForever(cfg, run, u, u, i, k);
    }
  }
}
