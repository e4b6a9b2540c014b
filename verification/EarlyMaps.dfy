/**
 What becomes of a shard when partition maps may arrive at any time, and exactly which arrivals put its
 partition map and its round counter out of step with the supervisor.
 */
module EarlyMaps {
  import opened Basics
  import opened Ledger
  import opened Shards
  import opened Protocol
  import opened Rounds

  /** A run without any assumption on timing, together with the steps taken. */
  ghost predicate LooseRun(cfg: Config, run: seq<System>, steps: seq<Step>) {
    |run| == |steps| + 1 && Initial(cfg, run[0])
    && forall n: nat :: n < |steps| ==> NextIsPossible(cfg, run, steps, n)
  }

  ghost predicate NextIsPossible(cfg: Config, run: seq<System>, steps: seq<Step>, n: nat)
    requires n < |steps| && |run| == |steps| + 1
  {
    Possible(cfg, run[n], steps[n]) && run[n + 1] == Do(cfg, run[n], steps[n])
  }

  /** How many rounds shard `k` has finished. */
  function Finished(steps: seq<Step>, k: ShardId): nat {
    if steps == [] then 0
    else Finished(steps[..|steps| - 1], k) + One(steps[|steps| - 1] == CommitPartitionStep(k))
  }

  /** The step delivers a map to `k`. */
  predicate BringsMap(s: System, step: Step, k: ShardId) {
    step.DeliverStep? && step.p < |s.net| && s.net[step.p].MapMsg? && s.net[step.p].to == k
  }

  /** The map arrives while an earlier one is pending and its partition request is not open yet. */
  predicate Spoils(s: System, step: Step, k: ShardId)
    requires k < |s.shards|
  {
    BringsMap(s, step, k) && s.shards[k].round < |s.shards[k].maps| && !s.shards[k].stage.PartitionOpen?
  }

  /** As long as the round structure holds, those are the maps that arrive while the shard collects. */
  lemma SpoilsWhileCollecting(cfg: Config, s: System, p: nat, k: ShardId)
    requires InRounds(cfg, s) && CanArrive(s, p) && k < |s.shards|
    ensures Spoils(s, DeliverStep(p), k) <==> BringsMap(s, DeliverStep(p), k) && s.shards[k].stage.Collecting?
  {
    KnownShard(cfg, s.sup.issued, s.shards, k);
    if BringsMap(s, DeliverStep(p), k) {
      KnownPacket(s.shards, s.sup.issued, s.net, s.net[p]);
    }
  }

  ghost predicate SpoilAt(run: seq<System>, steps: seq<Step>, k: ShardId, i: nat) {
    i < |steps| && i < |run| && k < |run[i].shards| && Spoils(run[i], steps[i], k)
  }

  ghost predicate SpoilSeen(run: seq<System>, steps: seq<Step>, k: ShardId, n: nat) {
    exists i :: 0 <= i < n && SpoilAt(run, steps, k, i)
  }

  /** Among the first `n` steps, `k` finished a round after such an arrival. */
  ghost predicate Spoiled(run: seq<System>, steps: seq<Step>, k: ShardId, n: nat) {
    exists i, j :: 0 <= i < j < n && j < |steps| && SpoilAt(run, steps, k, i) && steps[j] == CommitPartitionStep(k)
  }

  /** The shard's round is the number of rounds it finished, and its partition map is what the supervisor
      issued up to that round. */
  ghost predicate Located(s: System, k: ShardId, finished: nat)
    requires k < |s.shards|
  {
    s.shards[k].round == finished <= |s.sup.issued| && s.shards[k].pmap == Overlay(s.sup.issued, finished)
  }

  // ---------- Maps on their way ----------

  function InFlight(net: seq<Packet>, k: ShardId): seq<PartitionMap> {
    if net == [] then []
    else
      var last := net[|net| - 1];
      InFlight(net[..|net| - 1], k) + if last.MapMsg? && last.to == k then [last.pmap] else []
  }

  lemma {:induction false} InFlightConcat(x: seq<Packet>, y: seq<Packet>, k: ShardId)
    ensures InFlight(x + y, k) == InFlight(x, k) + InFlight(y, k)
  {
    if y == [] {
      assert x + y == x;
    } else {
      assert (x + y)[..|x + y| - 1] == x + y[..|y| - 1];
      InFlightConcat(x, y[..|y| - 1], k);
    }
  }

  lemma {:induction false} NoneInFlight(net: seq<Packet>, k: ShardId)
    requires forall pkt :: pkt in net ==> !(pkt.MapMsg? && pkt.to == k)
    ensures InFlight(net, k) == []
  {
    if net != [] {
      NoneInFlight(net[..|net| - 1], k);
      assert net[|net| - 1] in net;
    }
  }

  lemma AppendOthers(net: seq<Packet>, more: seq<Packet>, k: ShardId)
    requires forall pkt :: pkt in more ==> !pkt.MapMsg?
    ensures InFlight(net + more, k) == InFlight(net, k)
  {
    InFlightConcat(net, more, k);
    NoneInFlight(more, k);
  }

  lemma {:induction false} MapMsgsInFlight(m: PartitionMap, n: nat, k: ShardId)
    ensures InFlight(MapMsgs(m, n), k) == if k < n then [m] else []
  {
    if n > 0 {
      MapMsgsInFlight(m, n - 1, k);
      var prev := MapMsgs(m, n - 1);
      assert (prev + [MapMsg(n - 1, m)])[..|prev + [MapMsg(n - 1, m)]| - 1] == prev;
    }
  }

  lemma InFlightAround(before: seq<Packet>, pkt: Packet, after: seq<Packet>, k: ShardId)
    ensures InFlight(before + [pkt] + after, k)
         == InFlight(before, k) + (if pkt.MapMsg? && pkt.to == k then [pkt.pmap] else []) + InFlight(after, k)
  {
    InFlightConcat(before + [pkt], after, k);
    assert (before + [pkt])[..|before|] == before;
  }

  lemma NothingAhead(before: seq<Packet>, pkt: Packet, k: ShardId)
    requires pkt.MapMsg? && pkt.to == k && forall q :: 0 <= q < |before| ==> LinkOf(before[q]) != LinkOf(pkt)
    ensures InFlight(before, k) == []
  {
    forall x | x in before ensures !(x.MapMsg? && x.to == k) {
      var q :| 0 <= q < |before| && before[q] == x;
      assert LinkOf(before[q]) != LinkOf(pkt);
    }
    NoneInFlight(before, k);
  }

  lemma Regroup(x: seq<PartitionMap>, mid: seq<PartitionMap>, y: seq<PartitionMap>)
    requires x == [] || mid == []
    ensures x + mid + y == mid + (x + y)
  {
  }

  lemma FirstInFlight(before: seq<Packet>, pkt: Packet, after: seq<Packet>, k: ShardId)
    requires forall q :: 0 <= q < |before| ==> LinkOf(before[q]) != LinkOf(pkt)
    ensures InFlight(before + [pkt] + after, k)
         == (if pkt.MapMsg? && pkt.to == k then [pkt.pmap] else []) + InFlight(before + after, k)
  {
    InFlightAround(before, pkt, after, k);
    InFlightConcat(before, after, k);
    if pkt.MapMsg? && pkt.to == k {
      NothingAhead(before, pkt, k);
    }
    Regroup(InFlight(before, k), if pkt.MapMsg? && pkt.to == k then [pkt.pmap] else [], InFlight(after, k));
  }

  /** Of the maps on their way to `k` only the first can be delivered. */
  lemma InFlightRemove(net: seq<Packet>, p: nat, k: ShardId)
    requires FirstOnLink(net, p)
    ensures InFlight(net, k)
         == (if net[p].MapMsg? && net[p].to == k then [net[p].pmap] else []) + InFlight(RemoveAt(net, p), k)
  {
    assert net == net[..p] + [net[p]] + net[p + 1..];
    FirstInFlight(net[..p], net[p], net[p + 1..], k);
  }

  /** What the supervisor issued and `k` has not received is on its way, in order. */
  ghost predicate Underway(s: System, k: ShardId, got: nat) {
    got <= |s.sup.issued| && InFlight(s.net, k) == s.sup.issued[got..]
  }

  lemma IssueUnderway(cfg: Config, s: System, m: PartitionMap, k: ShardId, got: nat)
    requires Possible(cfg, s, IssueMapStep(m)) && k < cfg.shards && Underway(s, k, got)
    ensures Underway(Do(cfg, s, IssueMapStep(m)), k, got)
  {
    InFlightConcat(s.net, MapMsgs(m, cfg.shards), k);
    MapMsgsInFlight(m, cfg.shards, k);
    assert (s.sup.issued + [m])[got..] == s.sup.issued[got..] + [m];
  }

  /** A list without its first element. */
  lemma HeadTaken(all: seq<PartitionMap>, got: nat, m: PartitionMap, rest: seq<PartitionMap>)
    requires got <= |all| && all[got..] == [m] + rest
    ensures got < |all| && all[got] == m && all[got + 1..] == rest
  {
    assert |all[got..]| > 0 && all[got..][0] == m;
    assert all[got + 1..] == all[got..][1..];
  }

  lemma Delivered(cfg: Config, s: System, p: nat)
    requires Possible(cfg, s, DeliverStep(p))
    ensures Do(cfg, s, DeliverStep(p)).net == RemoveAt(s.net, p)
    ensures Do(cfg, s, DeliverStep(p)).sup.issued == s.sup.issued
  {
  }

  lemma DeliverUnderway(cfg: Config, s: System, p: nat, k: ShardId, got: nat)
    requires Possible(cfg, s, DeliverStep(p)) && Underway(s, k, got)
    ensures BringsMap(s, DeliverStep(p), k) ==> got < |s.sup.issued| && s.net[p].pmap == s.sup.issued[got]
    ensures Underway(Do(cfg, s, DeliverStep(p)), k, if BringsMap(s, DeliverStep(p), k) then got + 1 else got)
  {
    Delivered(cfg, s, p);
    TakenFromNet(s.net, p, k, s.sup.issued, got);
  }

  lemma TakenFromNet(net: seq<Packet>, p: nat, k: ShardId, issued: seq<PartitionMap>, got: nat)
    requires FirstOnLink(net, p) && got <= |issued| && InFlight(net, k) == issued[got..]
    ensures var brings := net[p].MapMsg? && net[p].to == k;
      (brings ==> got < |issued| && net[p].pmap == issued[got] && InFlight(RemoveAt(net, p), k) == issued[got + 1..])
      && (!brings ==> InFlight(RemoveAt(net, p), k) == issued[got..])
  {
    var rest := InFlight(RemoveAt(net, p), k);
    InFlightRemove(net, p, k);
    if net[p].MapMsg? && net[p].to == k {
      HeadTaken(issued, got, net[p].pmap, rest);
    } else {
      assert [] + rest == rest;
    }
  }

  lemma OtherUnderway(cfg: Config, s: System, step: Step, k: ShardId, got: nat)
    requires Possible(cfg, s, step) && Underway(s, k, got) && !step.DeliverStep? && !step.IssueMapStep?
    ensures Underway(Do(cfg, s, step), k, got)
  {
    match step
    case InjectStep(id, txs) => AppendOthers(s.net, [Inject(id, txs)], k);
    case CommitBlockStep(id) =>
      RelayMsgsAre(cfg, s.shards[id], id, s.shards[id].stage.body, cfg.shards);
      AppendOthers(s.net, BlockMsgs(cfg, s.shards[id], id, s.shards[id].stage.body), k);
    case DeclareReadyStep(id) =>
      ReadyMsgsAre(s.shards[id], id, cfg.shards);
      AppendOthers(s.net, ReadyMsgs(s.shards[id], id, cfg.shards), k);
    case ShipStep(id) => ShipUnderway(s.net, Parcels(cfg, s.shards[id], id), id, cfg.shards, k);
    case _ =>
  }

  lemma ShipUnderway(net: seq<Packet>, parcels: seq<Parcel>, id: ShardId, n: nat, k: ShardId)
    requires n <= |parcels|
    ensures InFlight(net + Shipments(parcels, id, n), k) == InFlight(net, k)
  {
    ShipmentsAre(parcels, id, n);
    AppendOthers(net, Shipments(parcels, id, n), k);
  }

  // ---------- What one shard keeps ----------

  /** No arrival has spoiled anything: the shard acts on its maps one by one, or acts on none any more
      because a map arrived while a request was open. */
  ghost predicate Regular(sh: Shard, c: nat, issued: seq<PartitionMap>, got: nat) {
    sh.round == c && (Live(sh, c, issued, got) || (c < |sh.maps| && !sh.partitionOn && !Declared(sh)))
  }

  ghost predicate Live(sh: Shard, c: nat, issued: seq<PartitionMap>, got: nat) {
    c <= |sh.maps| == got <= |issued| && sh.maps == issued[..got]
    && (sh.partitionOn <==> c < got) && (Declared(sh) ==> sh.partitionOn)
    && (if sh.stage.PartitionOpen? then sh.stage.atm.atid == c + 1 && sh.stage.atm.pmap == issued[c] else got <= c + 1)
  }

  /** A spoiling map has arrived: the next round to be finished goes wrong. */
  predicate Doomed(sh: Shard, c: nat) {
    sh.round == c && c + 2 <= |sh.maps| && (sh.stage.PartitionOpen? ==> c + 2 <= sh.stage.atm.atid)
  }

  /** A round has gone wrong. */
  predicate Ahead(sh: Shard, c: nat) {
    c < sh.round && (sh.stage.PartitionOpen? ==> sh.round < sh.stage.atm.atid)
  }

  ghost predicate Standing(sh: Shard, c: nat, issued: seq<PartitionMap>, got: nat, seen: bool, spoiled: bool) {
    (spoiled ==> seen && Ahead(sh, c))
    && (!spoiled ==> sh.round == c <= |issued| && sh.pmap == Overlay(issued, c))
    && (!spoiled && seen ==> Doomed(sh, c))
    && (!seen ==> Regular(sh, c, issued, got))
  }

  lemma IssueStands(sh: Shard, c: nat, issued: seq<PartitionMap>, m: PartitionMap, got: nat, seen: bool, spoiled: bool)
    requires Standing(sh, c, issued, got, seen, spoiled)
    ensures Standing(sh, c, issued + [m], got, seen, spoiled)
  {
    if !spoiled {
      OverlayExtends(issued, m, c);
    }
    if got <= |issued| {
      assert (issued + [m])[..got] == issued[..got];
    }
  }

  lemma MapStands(sh: Shard, c: nat, issued: seq<PartitionMap>, got: nat, seen: bool, spoiled: bool)
    requires Standing(sh, c, issued, got, seen, spoiled) && got < |issued|
    ensures var spoils := sh.round < |sh.maps| && !sh.stage.PartitionOpen?;
      Standing(HandlePartitionMsg(sh, issued[got]), c, issued, got + 1, seen || spoils, spoiled)
  {
    assert issued[..got + 1] == issued[..got] + [issued[got]];
  }

  lemma FinishStands(cfg: Config, sh: Shard, k: ShardId, c: nat, issued: seq<PartitionMap>, got: nat, seen: bool,
                     spoiled: bool)
    requires Standing(sh, c, issued, got, seen, spoiled) && sh.stage.PartitionOpen?
    ensures Standing(CommitPartition(cfg, sh, k, sh.stage.atm), c + 1, issued, got, seen, spoiled || seen)
  {
  }

  /** The shard after any step that brings it no map and finishes no round. */
  lemma OthersStand(cfg: Config, s: System, step: Step, k: ShardId, c: nat, issued: seq<PartitionMap>, got: nat,
                    seen: bool, spoiled: bool)
    requires Possible(cfg, s, step) && k < |s.shards| && Standing(s.shards[k], c, issued, got, seen, spoiled)
    requires !BringsMap(s, step, k) && step != CommitPartitionStep(k)
    ensures k < |Do(cfg, s, step).shards| && Standing(Do(cfg, s, step).shards[k], c, issued, got, seen, spoiled)
  {
    match step
    case DeliverStep(p) =>
      if !s.net[p].BlockInfo? && s.net[p].to == k {
        ReceivedStands(cfg, s.shards[k], s.net[p], c, issued, got, seen, spoiled);
      }
    case _ => LeaderStands(cfg, s, step, k, c, issued, got, seen, spoiled);
  }

  lemma LeaderStands(cfg: Config, s: System, step: Step, k: ShardId, c: nat, issued: seq<PartitionMap>, got: nat,
                     seen: bool, spoiled: bool)
    requires Possible(cfg, s, step) && k < |s.shards| && Standing(s.shards[k], c, issued, got, seen, spoiled)
    requires !step.DeliverStep? && step != CommitPartitionStep(k)
    ensures k < |Do(cfg, s, step).shards| && Standing(Do(cfg, s, step).shards[k], c, issued, got, seen, spoiled)
  {
    match step
    case OpenPartitionStep(id, order) =>
      if id == k {
        OpenStands(s.shards[k], order, c, issued, got, seen, spoiled);
      }
    case CommitBlockStep(_) =>
    case ShipStep(_) =>
    case _ =>
  }

  lemma ReceivedStands(cfg: Config, sh: Shard, pkt: Packet, c: nat, issued: seq<PartitionMap>, got: nat, seen: bool,
                       spoiled: bool)
    requires Standing(sh, c, issued, got, seen, spoiled) && !pkt.MapMsg?
    ensures Standing(Received(cfg, sh, pkt), c, issued, got, seen, spoiled)
  {
  }

  lemma OpenStands(sh: Shard, order: seq<ShardId>, c: nat, issued: seq<PartitionMap>, got: nat, seen: bool,
                   spoiled: bool)
    requires Standing(sh, c, issued, got, seen, spoiled) && sh.stage.Collecting? && sh.round < |sh.maps|
    requires forall i :: i in order ==> i in sh.received
    ensures Standing(OpenPartition(sh, order), c, issued, got, seen, spoiled)
  {
  }

  // ---------- Along a run ----------

  lemma SpoilSnoc(run: seq<System>, steps: seq<Step>, k: ShardId, n: nat)
    requires 0 < n <= |steps|
    ensures SpoilSeen(run, steps, k, n) <==> SpoilSeen(run, steps, k, n - 1) || SpoilAt(run, steps, k, n - 1)
    ensures Spoiled(run, steps, k, n)
        <==> Spoiled(run, steps, k, n - 1)
             || (SpoilSeen(run, steps, k, n - 1) && steps[n - 1] == CommitPartitionStep(k))
  {
  }

  /** Shard `k` stands as the arrivals so far say; `got` counts the maps it received. */
  ghost predicate Stands(s: System, k: ShardId, c: nat, got: nat, seen: bool, spoiled: bool) {
    k < |s.shards| && Underway(s, k, got) && Standing(s.shards[k], c, s.sup.issued, got, seen, spoiled)
  }

  lemma MapStep(cfg: Config, s: System, p: nat, k: ShardId, c: nat, got: nat, seen: bool, spoiled: bool)
    requires Possible(cfg, s, DeliverStep(p)) && Stands(s, k, c, got, seen, spoiled) && BringsMap(s, DeliverStep(p), k)
    ensures Stands(Do(cfg, s, DeliverStep(p)), k, c, got + 1, seen || Spoils(s, DeliverStep(p), k), spoiled)
  {
    DeliverUnderway(cfg, s, p, k, got);
    MapStands(s.shards[k], c, s.sup.issued, got, seen, spoiled);
  }

  lemma FinishStep(cfg: Config, s: System, k: ShardId, c: nat, got: nat, seen: bool, spoiled: bool)
    requires Possible(cfg, s, CommitPartitionStep(k)) && Stands(s, k, c, got, seen, spoiled)
    ensures Stands(Do(cfg, s, CommitPartitionStep(k)), k, c + 1, got, seen, spoiled || seen)
  {
    OtherUnderway(cfg, s, CommitPartitionStep(k), k, got);
    FinishStands(cfg, s.shards[k], k, c, s.sup.issued, got, seen, spoiled);
  }

  lemma IssueStep(cfg: Config, s: System, m: PartitionMap, k: ShardId, c: nat, got: nat, seen: bool, spoiled: bool)
    requires Possible(cfg, s, IssueMapStep(m)) && k < cfg.shards && Stands(s, k, c, got, seen, spoiled)
    ensures Stands(Do(cfg, s, IssueMapStep(m)), k, c, got, seen, spoiled)
  {
    IssueUnderway(cfg, s, m, k, got);
    IssueStands(s.shards[k], c, s.sup.issued, m, got, seen, spoiled);
  }

  lemma OtherStep(cfg: Config, s: System, step: Step, k: ShardId, c: nat, got: nat, seen: bool, spoiled: bool)
    requires Possible(cfg, s, step) && Stands(s, k, c, got, seen, spoiled)
    requires !BringsMap(s, step, k) && step != CommitPartitionStep(k) && !step.IssueMapStep?
    ensures Stands(Do(cfg, s, step), k, c, got, seen, spoiled)
  {
    OthersStand(cfg, s, step, k, c, s.sup.issued, got, seen, spoiled);
    IssuedKept(cfg, s, step);
    if step.DeliverStep? {
      DeliverUnderway(cfg, s, step.p, k, got);
    } else {
      OtherUnderway(cfg, s, step, k, got);
    }
  }

  lemma StepStands(cfg: Config, s: System, step: Step, k: ShardId, c: nat, got: nat, seen: bool, spoiled: bool)
    returns (got': nat)
    requires Possible(cfg, s, step) && k < cfg.shards && Stands(s, k, c, got, seen, spoiled)
    ensures Stands(Do(cfg, s, step), k, c + One(step == CommitPartitionStep(k)), got',
      seen || Spoils(s, step, k), spoiled || (seen && step == CommitPartitionStep(k)))
  {
    got' := got;
    if BringsMap(s, step, k) {
      got' := got + 1;
      MapStep(cfg, s, step.p, k, c, got, seen, spoiled);
    } else if step == CommitPartitionStep(k) {
      FinishStep(cfg, s, k, c, got, seen, spoiled);
    } else if step.IssueMapStep? {
      IssueStep(cfg, s, step.m, k, c, got, seen, spoiled);
    } else {
      OtherStep(cfg, s, step, k, c, got, seen, spoiled);
    }
  }

  lemma IssuedKept(cfg: Config, s: System, step: Step)
    requires Possible(cfg, s, step) && !step.IssueMapStep?
    ensures Do(cfg, s, step).sup.issued == s.sup.issued
  {
    match step
    case DeliverStep(_) =>
    case CommitBlockStep(_) =>
    case _ =>
  }

  /** Shard `k` after `n` steps stands as the steps say. */
  ghost predicate StandsAt(run: seq<System>, steps: seq<Step>, k: ShardId, n: nat, got: nat) {
    n < |run| && n <= |steps|
    && Stands(run[n], k, Finished(steps[..n], k), got, SpoilSeen(run, steps, k, n), Spoiled(run, steps, k, n))
  }

  lemma NextTells(run: seq<System>, steps: seq<Step>, k: ShardId, n: nat)
    requires 0 < n <= |steps| && |run| == |steps| + 1 && k < |run[n - 1].shards|
    ensures Finished(steps[..n], k) == Finished(steps[..n - 1], k) + One(steps[n - 1] == CommitPartitionStep(k))
    ensures SpoilSeen(run, steps, k, n) <==> SpoilSeen(run, steps, k, n - 1) || Spoils(run[n - 1], steps[n - 1], k)
    ensures Spoiled(run, steps, k, n)
        <==> Spoiled(run, steps, k, n - 1)
             || (SpoilSeen(run, steps, k, n - 1) && steps[n - 1] == CommitPartitionStep(k))
  {
    assert steps[..n][..n - 1] == steps[..n - 1];
    SpoilSnoc(run, steps, k, n);
  }

  lemma NextStands(cfg: Config, run: seq<System>, steps: seq<Step>, k: ShardId, n: nat, before: nat) returns (got: nat)
    requires 0 < n <= |steps| && |run| == |steps| + 1 && NextIsPossible(cfg, run, steps, n - 1)
    requires k < cfg.shards && StandsAt(run, steps, k, n - 1, before)
    ensures StandsAt(run, steps, k, n, got)
  {
    var c, c' := Finished(steps[..n - 1], k), Finished(steps[..n], k);
    var seen, seen' := SpoilSeen(run, steps, k, n - 1), SpoilSeen(run, steps, k, n);
    var spoiled, spoiled' := Spoiled(run, steps, k, n - 1), Spoiled(run, steps, k, n);
    NextTells(run, steps, k, n);
    got := StandsNext(cfg, run[n - 1], steps[n - 1], run[n], k, c, before, seen, spoiled, c', seen', spoiled');
  }

  lemma StandsNext(cfg: Config, s: System, step: Step, t: System, k: ShardId, c: nat, got: nat,
                   seen: bool, spoiled: bool, c': nat, seen': bool, spoiled': bool) returns (got': nat)
    requires Possible(cfg, s, step) && t == Do(cfg, s, step) && k < cfg.shards && Stands(s, k, c, got, seen, spoiled)
    requires c' == c + One(step == CommitPartitionStep(k)) && seen' == (seen || Spoils(s, step, k))
    requires spoiled' == (spoiled || (seen && step == CommitPartitionStep(k)))
    ensures Stands(t, k, c', got', seen', spoiled')
  {
    got' := StepStands(cfg, s, step, k, c, got, seen, spoiled);
  }

  lemma {:induction false} RunStands(cfg: Config, run: seq<System>, steps: seq<Step>, k: ShardId, n: nat)
    returns (got: nat)
    requires LooseRun(cfg, run, steps) && n <= |steps| && k < cfg.shards
    ensures StandsAt(run, steps, k, n, got)
  {
    if n == 0 {
      got := 0;
    } else {
      var before := RunStands(cfg, run, steps, k, n - 1);
      assert NextIsPossible(cfg, run, steps, n - 1);
      got := NextStands(cfg, run, steps, k, n, before);
    }
  }

  /** In every run, maps arriving at any time: a shard's round is the number of rounds it finished and its
      partition map that of the supervisor up to that round, if and only if the shard finished no round
      after a map had arrived between the previous map and the opening of its request. */
  lemma LocatedExactly(cfg: Config, run: seq<System>, steps: seq<Step>, k: ShardId, n: nat)
    requires LooseRun(cfg, run, steps) && n <= |steps| && k < cfg.shards
    ensures k < |run[n].shards|
    ensures Located(run[n], k, Finished(steps[..n], k)) <==> !Spoiled(run, steps, k, n)
  {
    var got := RunStands(cfg, run, steps, k, n);
  }
}
