/** An account whose home changes arrives at its new home in the state it left its old one in. */
module Migration {
  import opened Basics
  import opened Ledger
  import opened Execution
  import opened Shards
  import opened Protocol
  import opened Rounds
  import opened RoundSteps
  import opened Places
  import opened PlaceSteps
  import opened Runs
  import opened Authority

  /** Nobody holds `a`: it is in a parcel. */
  ghost predicate Homeless(cfg: Config, s: System, a: Addr) {
    forall k: nat :: k < |s.shards| ==> NotHeldAt(cfg, s, k, a)
  }

  predicate NotHeldAt(cfg: Config, s: System, k: nat, a: Addr)
    requires k < |s.shards|
  {
    !(InStep(s.sup.issued, s.shards, k) && Holds(cfg, s.sup.issued, s.shards[k], k, a))
  }

  lemma BlockLeavesParcels(cfg: Config, s: System, k: ShardId, a: Addr)
    requires InRounds(cfg, s) && Placed(cfg, s) && Enabled(cfg, s, CommitBlockStep(k)) && NotHeldAt(cfg, s, k, a)
    ensures Fetch(Do(cfg, s, CommitBlockStep(k)).hist.ledger, a, 0) == Fetch(s.hist.ledger, a, 0)
  {
    BlockLedger(cfg, s, k);
    PlacedShard(cfg, s, k);
    assert Same(Do(cfg, s, CommitBlockStep(k)).hist.ledger, s.hist.ledger, a);
  }

  /** No step changes the state of an account that is under way. */
  lemma ParcelsFrozen(cfg: Config, s: System, step: Step, a: Addr)
    requires Inv(cfg, s) && Enabled(cfg, s, step) && Homeless(cfg, s, a)
    ensures Fetch(Do(cfg, s, step).hist.ledger, a, 0) == Fetch(s.hist.ledger, a, 0)
  {
    match step
    case CommitBlockStep(k) =>
      assert NotHeldAt(cfg, s, k, a);
      BlockLeavesParcels(cfg, s, k, a);
    case CommitPartitionStep(k) => PartitionLedgerIs(cfg, s, k);
    case _ =>
  }

  /** Between shipping by `i` and finishing by `k`, round `r`'s movers from `i` to `k` are under way. */
  ghost predicate UnderWay(cfg: Config, s: System, r: nat, i: ShardId, k: ShardId, a: Addr) {
    i < |s.shards| && k < |s.shards| && r < |s.sup.issued|
    && Moves(cfg, s.sup.issued, r, a, i, k)
    && Shipped(s.shards[i]) == r + 1 && s.shards[k].round == r
  }

  lemma UnderWayIsHomeless(cfg: Config, s: System, r: nat, i: ShardId, k: ShardId, a: Addr)
    requires InRounds(cfg, s) && Placed(cfg, s) && UnderWay(cfg, s, r, i, k, a)
    ensures Homeless(cfg, s, a)
  {
    var lo := RoundIs(cfg, s);
    assert RoundAt(s.shards, i, lo) && RoundAt(s.shards, k, lo);
    MovedTo(cfg, s.sup.issued, r, a, i, k);
    forall y: nat | y < |s.shards| ensures NotHeldAt(cfg, s, y, a) {
      HolderHolds(cfg, s, lo, a, y);
    }
  }

  /** Rounds only grow, and issued maps stay issued. */
  ghost predicate Grows(s: System, t: System) {
    |s.shards| == |t.shards| && s.sup.issued <= t.sup.issued
    && forall k: nat :: k < |s.shards| && k < |t.shards| ==> ShardGrows(s, t, k)
  }

  predicate ShardGrows(s: System, t: System, k: nat)
    requires k < |s.shards| && k < |t.shards|
  {
    s.shards[k].round <= t.shards[k].round && Shipped(s.shards[k]) <= Shipped(t.shards[k])
  }

  lemma FinishGrows(cfg: Config, s: System, k: ShardId)
    requires InRounds(cfg, s) && Enabled(cfg, s, CommitPartitionStep(k))
    ensures ShardGrows(s, Do(cfg, s, CommitPartitionStep(k)), k)
  {
    KnownShard(cfg, s.sup.issued, s.shards, k);
  }

  lemma ReceiverGrows(cfg: Config, sh: Shard, pkt: Packet)
    ensures Received(cfg, sh, pkt).round == sh.round && Shipped(Received(cfg, sh, pkt)) == Shipped(sh)
  {
  }

  lemma ShipperGrows(cfg: Config, sh: Shard, k: ShardId)
    requires sh.maps != []
    ensures Ship(cfg, sh, k).round == sh.round && Shipped(sh) <= Shipped(Ship(cfg, sh, k))
  {
  }

  lemma ActorGrows(cfg: Config, s: System, step: Step, k: ShardId)
    requires InRounds(cfg, s) && Enabled(cfg, s, step) && ActsOn(s, step) == Some(k) && k < |s.shards|
    requires |Do(cfg, s, step).shards| == |s.shards|
    ensures ShardGrows(s, Do(cfg, s, step), k)
  {
    match step
    case CommitPartitionStep(_) => FinishGrows(cfg, s, k);
    case DeliverStep(p) => ReceiverGrows(cfg, s.shards[k], s.net[p]);
    case ShipStep(_) => ShipperGrows(cfg, s.shards[k], k);
    case _ =>
  }

  lemma StepGrows(cfg: Config, s: System, step: Step)
    requires InRounds(cfg, s) && Enabled(cfg, s, step)
    ensures Grows(s, Do(cfg, s, step))
  {
    var t := Do(cfg, s, step);
    SizeKept(cfg, s, step);
    forall k: nat | k < |s.shards| && k < |t.shards| ensures ShardGrows(s, t, k) {
      OthersUntouched(cfg, s, step, k);
      if ActsOn(s, step) == Some(k) {
        ActorGrows(cfg, s, step, k);
      }
    }
  }

  lemma GrowsTransitive(s: System, t: System, u: System)
    requires Grows(s, t) && Grows(t, u)
    ensures Grows(s, u)
  {
    forall k: nat | k < |s.shards| && k < |u.shards| ensures ShardGrows(s, u, k) {
      assert ShardGrows(s, t, k) && ShardGrows(t, u, k);
    }
  }

  lemma FollowsGrows(cfg: Config, s: System, t: System)
    requires InRounds(cfg, s) && Follows(cfg, s, t)
    ensures Grows(s, t)
  {
    var step :| Enabled(cfg, s, step) && Do(cfg, s, step) == t;
    StepGrows(cfg, s, step);
  }

  lemma {:induction false} RunGrows(cfg: Config, run: seq<System>, t: nat, u: nat)
    requires cfg.Valid() && IsRun(cfg, run) && t <= u < |run|
    ensures Grows(run[t], run[u])
    decreases u
  {
    if t < u {
      RunGrows(cfg, run, t, u - 1);
      RunInv(cfg, run, u - 1);
      assert NextFollows(cfg, run, u - 1);
      FollowsGrows(cfg, run[u - 1], run[u]);
      GrowsTransitive(run[t], run[u - 1], run[u]);
    }
  }

  lemma {:induction false} OverlayPrefix(ms: seq<PartitionMap>, more: seq<PartitionMap>, r: nat)
    requires ms <= more && r <= |ms|
    ensures Overlay(ms, r) == Overlay(more, r)
  {
    if r > 0 {
      OverlayPrefix(ms, more, r - 1);
    }
  }

  /** Under way from right after shipping until right before finishing. */
  lemma StillUnderWay(cfg: Config, run: seq<System>, t: nat, v: nat, u: nat, r: nat, i: ShardId, k: ShardId, a: Addr)
    requires cfg.Valid() && IsRun(cfg, run) && t <= v <= u < |run|
    requires UnderWay(cfg, run[t], r, i, k, a)
    requires k < |run[u].shards| && run[u].shards[k].round == r
    ensures UnderWay(cfg, run[v], r, i, k, a)
  {
    RunGrows(cfg, run, t, v);
    RunGrows(cfg, run, v, u);
    assert ShardGrows(run[t], run[v], i) && ShardGrows(run[t], run[v], k) && ShardGrows(run[v], run[u], k);
    OverlayPrefix(run[t].sup.issued, run[v].sup.issued, r);
    RunInv(cfg, run, v);
    KnownPair(run[v].shards, run[v].net, k, i);
  }

  lemma {:induction false} FrozenUnderWay(cfg: Config, run: seq<System>, t: nat, v: nat, u: nat,
                                          r: nat, i: ShardId, k: ShardId, a: Addr)
    requires cfg.Valid() && IsRun(cfg, run) && t <= v <= u < |run|
    requires UnderWay(cfg, run[t], r, i, k, a)
    requires k < |run[u].shards| && run[u].shards[k].round == r
    ensures Fetch(run[v].hist.ledger, a, 0) == Fetch(run[t].hist.ledger, a, 0)
    decreases v
  {
    if t < v {
      FrozenUnderWay(cfg, run, t, v - 1, u, r, i, k, a);
      StillUnderWay(cfg, run, t, v - 1, u, r, i, k, a);
      RunInv(cfg, run, v - 1);
      UnderWayIsHomeless(cfg, run[v - 1], r, i, k, a);
      assert NextFollows(cfg, run, v - 1);
      var step :| Enabled(cfg, run[v - 1], step) && Do(cfg, run[v - 1], step) == run[v];
      ParcelsFrozen(cfg, run[v - 1], step, a);
    }
  }

  lemma ShipStarts(cfg: Config, s: System, i: ShardId, k: ShardId, a: Addr)
    requires Inv(cfg, s) && Enabled(cfg, s, ShipStep(i)) && k < |s.shards|
    requires s.shards[i].round < |s.sup.issued| && Moves(cfg, s.sup.issued, s.shards[i].round, a, i, k)
    ensures UnderWay(cfg, Do(cfg, s, ShipStep(i)), s.shards[i].round, i, k, a)
    ensures Fetch(s.shards[i].accounts, a, 0) == Fetch(Do(cfg, s, ShipStep(i)).hist.ledger, a, 0)
  {
    BarrierMeans(cfg, s, i, k);
    PlacedShard(cfg, s, i);
    assert Holds(cfg, s.sup.issued, s.shards[i], i, a);
  }

  lemma FinishStores(cfg: Config, s: System, k: ShardId, i: ShardId, a: Addr)
    requires InRounds(cfg, s) && Placed(cfg, s) && Enabled(cfg, s, CommitPartitionStep(k)) && i < |s.shards|
    requires UnderWay(cfg, s, s.shards[k].round, i, k, a)
    ensures var t := Do(cfg, s, CommitPartitionStep(k));
      k < |t.shards| && a in t.shards[k].accounts && t.shards[k].accounts[a] == Fetch(s.hist.ledger, a, 0)
  {
    TransferIs(cfg, s, k);
    FinishedShard(cfg, s, k);
    MovedTo(cfg, s.sup.issued, s.shards[k].round, a, i, k);
    StoresMover(cfg, s.sup.issued, s.hist.ledger, s.shards[k], k, a);
  }

  lemma FinishedShard(cfg: Config, s: System, k: ShardId)
    requires Enabled(cfg, s, CommitPartitionStep(k))
    ensures k < |Do(cfg, s, CommitPartitionStep(k)).shards|
    ensures Do(cfg, s, CommitPartitionStep(k)).shards[k] == CommitPartition(cfg, s.shards[k], k, s.shards[k].stage.atm)
  {
  }

  lemma TransferIs(cfg: Config, s: System, k: ShardId)
    requires InRounds(cfg, s) && Placed(cfg, s) && k < |s.shards| && s.shards[k].stage.PartitionOpen?
    ensures s.shards[k].round < |s.sup.issued| && TransferOk(cfg, s.sup.issued, s.hist.ledger, s.shards[k], k)
    ensures s.shards[k].pmap + s.shards[k].stage.atm.pmap == Overlay(s.sup.issued, s.shards[k].round + 1)
  {
    PlacedShard(cfg, s, k);
    PartitionMapIs(cfg, s, k);
  }

  lemma StoresMover(cfg: Config, issued: seq<PartitionMap>, ledger: Accounts, sh: Shard, k: ShardId, a: Addr)
    requires sh.round < |issued| && sh.stage.PartitionOpen? && TransferOk(cfg, issued, ledger, sh, k)
    requires sh.pmap + sh.stage.atm.pmap == Overlay(issued, sh.round + 1)
    requires HomeAt(cfg, issued, sh.round, a) != k && HomeAt(cfg, issued, sh.round + 1, a) == k
    ensures var t := CommitPartition(cfg, sh, k, sh.stage.atm);
      a in t.accounts && t.accounts[a] == Fetch(ledger, a, 0)
  {
    assert a in sh.stage.atm.accounts;
  }

  /** The run takes `step` at position `t`. */
  ghost predicate Takes(cfg: Config, run: seq<System>, t: nat, step: Step) {
    t + 1 < |run| && Enabled(cfg, run[t], step) && run[t + 1] == Do(cfg, run[t], step)
  }

  lemma ShippedIsUnderWay(cfg: Config, run: seq<System>, t: nat, i: ShardId, k: ShardId, a: Addr)
    requires cfg.Valid() && IsRun(cfg, run) && Takes(cfg, run, t, ShipStep(i))
    requires k < |run[t].shards| && run[t].shards[i].round < |run[t].sup.issued|
    requires Moves(cfg, run[t].sup.issued, run[t].shards[i].round, a, i, k)
    ensures UnderWay(cfg, run[t + 1], run[t].shards[i].round, i, k, a)
    ensures Fetch(run[t].shards[i].accounts, a, 0) == Fetch(run[t + 1].hist.ledger, a, 0)
  {
    RunInv(cfg, run, t);
    ShipStarts(cfg, run[t], i, k, a);
  }

  lemma FinishedIsStored(cfg: Config, run: seq<System>, u: nat, i: ShardId, k: ShardId, a: Addr)
    requires cfg.Valid() && IsRun(cfg, run) && Takes(cfg, run, u, CommitPartitionStep(k))
    requires UnderWay(cfg, run[u], run[u].shards[k].round, i, k, a)
    ensures k < |run[u + 1].shards| && a in run[u + 1].shards[k].accounts
    ensures run[u + 1].shards[k].accounts[a] == Fetch(run[u].hist.ledger, a, 0)
  {
    RunInv(cfg, run, u);
    FinishStores(cfg, run[u], k, i, a);
  }

  lemma ArrivesAsShipped(cfg: Config, run: seq<System>, t: nat, u: nat, i: ShardId, k: ShardId, a: Addr)
    requires cfg.Valid() && IsRun(cfg, run) && t < u
    requires Takes(cfg, run, t, ShipStep(i)) && Takes(cfg, run, u, CommitPartitionStep(k))
    requires k < |run[t].shards| && run[t].shards[i].round == run[u].shards[k].round
    requires run[t].shards[i].round < |run[t].sup.issued|
    requires Moves(cfg, run[t].sup.issued, run[t].shards[i].round, a, i, k)
    ensures k < |run[u + 1].shards| && a in run[u + 1].shards[k].accounts
    ensures run[u + 1].shards[k].accounts[a] == Fetch(run[t].shards[i].accounts, a, 0)
  {
    var r := run[t].shards[i].round;
    ShippedIsUnderWay(cfg, run, t, i, k, a);
    StillUnderWay(cfg, run, t + 1, u, u, r, i, k, a);
    FrozenUnderWay(cfg, run, t + 1, u, u, r, i, k, a);
    FinishedIsStored(cfg, run, u, i, k, a);
  }

  // ---------- Every round is shipped once ----------

  lemma FinishKeepsShipped(cfg: Config, s: System, k: ShardId)
    requires InRounds(cfg, s) && Enabled(cfg, s, CommitPartitionStep(k))
    ensures Shipped(Do(cfg, s, CommitPartitionStep(k)).shards[k]) == Shipped(s.shards[k])
  {
    KnownShard(cfg, s.sup.issued, s.shards, k);
  }

  /** Only shipping counts as having shipped. */
  lemma ShippedSteps(cfg: Config, s: System, step: Step, i: ShardId)
    requires InRounds(cfg, s) && Enabled(cfg, s, step) && i < |s.shards| && step != ShipStep(i)
    ensures i < |Do(cfg, s, step).shards| && Shipped(Do(cfg, s, step).shards[i]) == Shipped(s.shards[i])
  {
    OthersUntouched(cfg, s, step, i);
    if ActsOn(s, step) == Some(i) {
      match step
      case CommitPartitionStep(_) => FinishKeepsShipped(cfg, s, i);
      case DeliverStep(p) => ReceiverGrows(cfg, s.shards[i], s.net[p]);
      case CommitBlockStep(_) =>
      case _ =>
    }
  }

  /** At `t` shard `i` ships its accounts of round `r`. */
  ghost predicate ShipsAt(cfg: Config, run: seq<System>, t: nat, i: ShardId, r: nat) {
    Takes(cfg, run, t, ShipStep(i)) && run[t].shards[i].round == r
  }

  lemma FollowsShips(cfg: Config, run: seq<System>, t: nat, i: ShardId, r: nat)
    requires cfg.Valid() && IsRun(cfg, run) && t + 1 < |run| && i < |run[t].shards|
    requires i < |run[t + 1].shards| && Shipped(run[t + 1].shards[i]) > r && Shipped(run[t].shards[i]) <= r
    ensures ShipsAt(cfg, run, t, i, r)
  {
    RunInv(cfg, run, t);
    assert NextFollows(cfg, run, t);
    var step :| Enabled(cfg, run[t], step) && Do(cfg, run[t], step) == run[t + 1];
    if step == ShipStep(i) {
      KnownShard(cfg, run[t].sup.issued, run[t].shards, i);
      ShipperGrows(cfg, run[t].shards[i], i);
    } else {
      ShippedSteps(cfg, run[t], step, i);
    }
  }

  lemma {:induction false} ShippedEarlier(cfg: Config, run: seq<System>, u: nat, i: ShardId, r: nat) returns (t: nat)
    requires cfg.Valid() && IsRun(cfg, run) && u < |run| && i < |run[u].shards| && Shipped(run[u].shards[i]) > r
    ensures t < u && ShipsAt(cfg, run, t, i, r)
  {
    t := 0;
    if u > 0 {
      RunGrows(cfg, run, u - 1, u);
      if Shipped(run[u - 1].shards[i]) > r {
        t := ShippedEarlier(cfg, run, u - 1, i, r);
      } else {
        t := u - 1;
        FollowsShips(cfg, run, u - 1, i, r);
      }
    }
  }

  /** A shard ships a round at most once. */
  lemma ShipsOnce(cfg: Config, run: seq<System>, t: nat, v: nat, i: ShardId, r: nat)
    requires cfg.Valid() && IsRun(cfg, run) && ShipsAt(cfg, run, t, i, r) && ShipsAt(cfg, run, v, i, r)
    ensures t == v
  {
    if t < v {
      ShippedBefore(cfg, run, t, v, i, r);
    } else if v < t {
      ShippedBefore(cfg, run, v, t, i, r);
    }
  }

  /** After shipping a round, more rounds are shipped. */
  lemma ShippedBefore(cfg: Config, run: seq<System>, t: nat, v: nat, i: ShardId, r: nat)
    requires cfg.Valid() && IsRun(cfg, run) && t < v < |run| && ShipsAt(cfg, run, t, i, r)
    ensures i < |run[v].shards| && Shipped(run[v].shards[i]) > r
  {
    SizeKept(cfg, run[t], ShipStep(i));
    RunGrows(cfg, run, t + 1, v);
    assert ShardGrows(run[t + 1], run[v], i);
  }

  /** Whenever a shard finishes a round, every shard has shipped that round, once. */
  lemma FinishedWasShipped(cfg: Config, run: seq<System>, u: nat, i: ShardId, k: ShardId) returns (t: nat)
    requires cfg.Valid() && IsRun(cfg, run) && Takes(cfg, run, u, CommitPartitionStep(k)) && i < |run[u].shards|
    ensures t < u && ShipsAt(cfg, run, t, i, run[u].shards[k].round)
    ensures forall v :: 0 <= v && ShipsAt(cfg, run, v, i, run[u].shards[k].round) ==> v == t
  {
    var r := run[u].shards[k].round;
    RunInv(cfg, run, u);
    KnownShard(cfg, run[u].sup.issued, run[u].shards, k);
    if i != k {
      CollectedMeans(cfg, run[u], k, i);
    }
    t := ShippedEarlier(cfg, run, u, i, r);
    forall v: nat | ShipsAt(cfg, run, v, i, r) ensures v == t {
      ShipsOnce(cfg, run, t, v, i, r);
    }
  }

  lemma MovedThen(cfg: Config, run: seq<System>, t: nat, u: nat, r: nat, i: ShardId, k: ShardId, a: Addr)
    requires cfg.Valid() && IsRun(cfg, run) && t <= u < |run| && r < |run[t].sup.issued| && r < |run[u].sup.issued|
    requires Moves(cfg, run[u].sup.issued, r, a, i, k)
    ensures Moves(cfg, run[t].sup.issued, r, a, i, k)
  {
    RunGrows(cfg, run, t, u);
    OverlayPrefix(run[t].sup.issued, run[u].sup.issued, r);
  }

  /** Migration keeps accounts: whenever `k` finishes a round, every account that the round's map moves from
      `i` to `k` was shipped once, by `i`, and whatever happened in the whole system since, it arrives in the
      state in which it left. */
  lemma MigrationKeepsAccounts(cfg: Config, run: seq<System>, u: nat, i: ShardId, k: ShardId, a: Addr) returns (t: nat)
    requires cfg.Valid() && IsRun(cfg, run) && Takes(cfg, run, u, CommitPartitionStep(k)) && i < |run[u].shards|
    requires run[u].shards[k].round < |run[u].sup.issued|
    requires Moves(cfg, run[u].sup.issued, run[u].shards[k].round, a, i, k)
    ensures t < u && ShipsAt(cfg, run, t, i, run[u].shards[k].round)
    ensures forall v :: 0 <= v && ShipsAt(cfg, run, v, i, run[u].shards[k].round) ==> v == t
    ensures k < |run[u + 1].shards| && a in run[u + 1].shards[k].accounts
    ensures run[u + 1].shards[k].accounts[a] == Fetch(run[t].shards[i].accounts, a, 0)
  {
    var r := run[u].shards[k].round;
    t := FinishedWasShipped(cfg, run, u, i, k);
    RunInv(cfg, run, t);
    KnownShard(cfg, run[t].sup.issued, run[t].shards, i);
    RunGrows(cfg, run, t, u);
    MovedThen(cfg, run, t, u, r, i, k, a);
    ArrivesAsShipped(cfg, run, t, u, i, k, a);
  }
}
