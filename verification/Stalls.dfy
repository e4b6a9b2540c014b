/**
 What a map does that arrives after its receiver opened the partition request of the previous round and before
 it commits it: the receiver never acts on it, and no later round takes place.
 */
module Stalls {
  import opened Basics
  import opened Ledger
  import opened Shards
  import opened Protocol
  import opened Rounds
  import opened Runs
  import opened Barrier
  import opened EarlyMaps

  /** `k` is about to commit a partition request behind which the next map has arrived. */
  ghost predicate Overtaken(cfg: Config, s: System, k: ShardId) {
    Enabled(cfg, s, CommitPartitionStep(k)) && |s.shards[k].maps| == s.shards[k].round + 2
  }

  ghost predicate StalledAt(s: System, k: ShardId) {
    k < |s.shards| && Stalled(s.shards[k])
  }

  /** Whatever is received, a stalled shard has all maps there are, and the supervisor issues none. */
  lemma StalledMeans(cfg: Config, s: System, k: ShardId)
    requires InRounds(cfg, s) && StalledAt(s, k)
    ensures s.sup.curEpoch < |s.sup.issued| == s.shards[k].round + 1 && Count(s.net, MapTag(k)) == 0
    ensures s.shards[k].stage.Idle? || s.shards[k].stage.BlockOpen?
  {
    KnownShard(cfg, s.sup.issued, s.shards, k);
  }

  lemma NoMapArrives(cfg: Config, s: System, p: nat, k: ShardId)
    requires InRounds(cfg, s) && StalledAt(s, k) && p < |s.net|
    ensures !(s.net[p].MapMsg? && s.net[p].to == k)
  {
    StalledMeans(cfg, s, k);
    if s.net[p].MapMsg? && s.net[p].to == k {
      CountIn(s.net, s.net[p]);
    }
  }

  lemma ReceivedStalls(cfg: Config, sh: Shard, pkt: Packet)
    requires Stalled(sh) && !pkt.MapMsg?
    ensures Stalled(Received(cfg, sh, pkt)) && Received(cfg, sh, pkt).round == sh.round
  {
  }

  lemma DeliverStalls(cfg: Config, s: System, p: nat, k: ShardId)
    requires InRounds(cfg, s) && Deliverable(cfg, s, p) && StalledAt(s, k)
    ensures StalledAt(Deliver(cfg, s, p), k) && Deliver(cfg, s, p).shards[k].round == s.shards[k].round
    ensures Deliver(cfg, s, p).sup.issued == s.sup.issued
  {
    NoMapArrives(cfg, s, p, k);
    if !s.net[p].BlockInfo? && s.net[p].to == k {
      ReceivedStalls(cfg, s.shards[k], s.net[p]);
    }
  }

  /** The stages a stalled shard goes through are those of a block. */
  lemma LeaderStalls(cfg: Config, s: System, step: Step, k: ShardId)
    requires Enabled(cfg, s, step) && ActsOn(s, step) == Some(k) && !step.DeliverStep? && StalledAt(s, k)
    requires s.shards[k].stage.Idle? || s.shards[k].stage.BlockOpen?
    ensures StalledAt(Do(cfg, s, step), k) && Do(cfg, s, step).shards[k].round == s.shards[k].round
  {
    match step
    case OpenBlockStep(_, _) =>
    case CommitBlockStep(_) =>
    case _ =>
  }

  /** A stalled shard stays stalled, in its round, and nothing is issued or injected any more. */
  lemma StepStalls(cfg: Config, s: System, step: Step, k: ShardId)
    requires InRounds(cfg, s) && Enabled(cfg, s, step) && StalledAt(s, k)
    ensures !step.IssueMapStep? && !step.InjectStep?
    ensures StalledAt(Do(cfg, s, step), k) && Do(cfg, s, step).shards[k].round == s.shards[k].round
    ensures Do(cfg, s, step).sup.issued == s.sup.issued
  {
    StalledMeans(cfg, s, k);
    if step.DeliverStep? {
      DeliverStalls(cfg, s, step.p, k);
    } else {
      IssuedKept(cfg, s, step);
      OthersUntouched(cfg, s, step, k);
      if ActsOn(s, step) == Some(k) {
        LeaderStalls(cfg, s, step, k);
      }
    }
  }

  /** No other step of `k` stalls it. */
  lemma LeaderWasStalled(cfg: Config, s: System, step: Step, k: ShardId)
    requires Enabled(cfg, s, step) && ActsOn(s, step) == Some(k) && !step.DeliverStep? && !step.CommitPartitionStep?
    requires StalledAt(Do(cfg, s, step), k) && k < |s.shards|
    ensures StalledAt(s, k)
  {
    match step
    case CommitBlockStep(_) =>
    case ShipStep(_) =>
    case _ =>
  }

  lemma ReceivedWasStalled(cfg: Config, sh: Shard, pkt: Packet)
    requires Stalled(Received(cfg, sh, pkt))
    ensures Stalled(sh)
  {
  }

  lemma FinishedWasOvertaken(cfg: Config, s: System, k: ShardId)
    requires InRounds(cfg, s) && Enabled(cfg, s, CommitPartitionStep(k))
    requires StalledAt(Do(cfg, s, CommitPartitionStep(k)), k)
    ensures Overtaken(cfg, s, k)
  {
    KnownShard(cfg, s.sup.issued, s.shards, k);
  }

  /** Only committing an overtaken request stalls a shard. */
  lemma StallWasOvertaken(cfg: Config, s: System, step: Step, k: ShardId)
    requires InRounds(cfg, s) && Enabled(cfg, s, step) && StalledAt(Do(cfg, s, step), k)
    ensures StalledAt(s, k) || (step == CommitPartitionStep(k) && Overtaken(cfg, s, k))
  {
    SizeKept(cfg, s, step);
    OthersUntouched(cfg, s, step, k);
    if ActsOn(s, step) == Some(k) {
      if step.DeliverStep? {
        ReceivedWasStalled(cfg, s.shards[k], s.net[step.p]);
      } else if step.CommitPartitionStep? {
        FinishedWasOvertaken(cfg, s, k);
      } else {
        LeaderWasStalled(cfg, s, step, k);
      }
    }
  }

  lemma OvertakenStalls(cfg: Config, s: System, k: ShardId)
    requires InRounds(cfg, s) && Overtaken(cfg, s, k)
    ensures StalledAt(Do(cfg, s, CommitPartitionStep(k)), k)
  {
    KnownShard(cfg, s.sup.issued, s.shards, k);
  }

  ghost predicate OvertakesAt(cfg: Config, run: seq<System>, t: nat, k: ShardId) {
    t + 1 < |run| && Overtaken(cfg, run[t], k) && run[t + 1] == Do(cfg, run[t], CommitPartitionStep(k))
  }

  /** The shard is stalled in the round, with no more maps issued than then. */
  ghost predicate StuckIn(s: System, k: ShardId, round: nat, issued: seq<PartitionMap>) {
    StalledAt(s, k) && s.shards[k].round == round && s.sup.issued == issued && s.sup.curEpoch < |issued|
  }

  lemma StuckFollows(cfg: Config, s: System, t: System, k: ShardId, round: nat, issued: seq<PartitionMap>)
    requires InRounds(cfg, s) && InRounds(cfg, t) && Follows(cfg, s, t) && StuckIn(s, k, round, issued)
    ensures StuckIn(t, k, round, issued)
  {
    var step :| Enabled(cfg, s, step) && Do(cfg, s, step) == t;
    StepStalls(cfg, s, step, k);
    StalledMeans(cfg, t, k);
  }

  lemma FollowsStalls(cfg: Config, run: seq<System>, t: nat, k: ShardId, round: nat, issued: seq<PartitionMap>)
    requires cfg.Valid() && IsRun(cfg, run) && t + 1 < |run| && StuckIn(run[t], k, round, issued)
    ensures StuckIn(run[t + 1], k, round, issued)
  {
    InRoundsAt(cfg, run, t);
    InRoundsAt(cfg, run, t + 1);
    assert NextFollows(cfg, run, t);
    StuckFollows(cfg, run[t], run[t + 1], k, round, issued);
  }

  /** Once a shard is stalled it stays in its round, and the supervisor, whose epoch stays behind, issues and
      injects nothing any more. */
  lemma {:induction false} StalledForever(cfg: Config, run: seq<System>, t: nat, u: nat, k: ShardId)
    requires cfg.Valid() && IsRun(cfg, run) && t <= u < |run| && StalledAt(run[t], k)
    ensures StuckIn(run[u], k, run[t].shards[k].round, run[t].sup.issued)
    decreases u
  {
    if u == t {
      InRoundsAt(cfg, run, t);
      StalledMeans(cfg, run[t], k);
    } else {
      StalledForever(cfg, run, t, u - 1, k);
      FollowsStalls(cfg, run, u - 1, k, run[t].shards[k].round, run[t].sup.issued);
    }
  }

  lemma FollowsWasStalled(cfg: Config, run: seq<System>, t: nat, k: ShardId)
    requires cfg.Valid() && IsRun(cfg, run) && t + 1 < |run| && StalledAt(run[t + 1], k)
    ensures StalledAt(run[t], k) || OvertakesAt(cfg, run, t, k)
  {
    InRoundsAt(cfg, run, t);
    assert NextFollows(cfg, run, t);
    var step :| Enabled(cfg, run[t], step) && Do(cfg, run[t], step) == run[t + 1];
    StallWasOvertaken(cfg, run[t], step, k);
  }

  lemma {:induction false} StallWasMade(cfg: Config, run: seq<System>, u: nat, k: ShardId)
    requires cfg.Valid() && IsRun(cfg, run) && u < |run| && StalledAt(run[u], k)
    ensures exists t :: 0 <= t < u && OvertakesAt(cfg, run, t, k)
  {
    if u > 0 {
      FollowsWasStalled(cfg, run, u - 1, k);
      if StalledAt(run[u - 1], k) {
        StallWasMade(cfg, run, u - 1, k);
      }
    }
  }

  /** In every run a shard is stalled if and only if it committed, at some earlier step, a partition request
      behind which the next map had arrived. */
  lemma StalledExactly(cfg: Config, run: seq<System>, u: nat, k: ShardId)
    requires cfg.Valid() && IsRun(cfg, run) && u < |run|
    ensures StalledAt(run[u], k) <==> exists t :: 0 <= t < u && OvertakesAt(cfg, run, t, k)
  {
    if t: nat :| t < u && OvertakesAt(cfg, run, t, k) {
      InRoundsAt(cfg, run, t);
      OvertakenStalls(cfg, run[t], k);
      StalledForever(cfg, run, t + 1, u, k);
    }
    if StalledAt(run[u], k) {
      StallWasMade(cfg, run, u, k);
    }
  }
}
