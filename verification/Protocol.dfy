/**
 The whole system: shards, supervisor, messages in flight, and a history of what was
 injected and executed. Every step is one atomic handler or one stage of a leader.
 */
module Protocol {
  import opened Basics
  import opened Ledger
  import opened Execution
  import opened Shards

  datatype Supervisor = Supervisor(modifiedMap: PartitionMap, issued: seq<PartitionMap>, curEpoch: nat)

  /** Not part of the program: what was injected, which transactions had their first and their
      second phase executed, the single ledger the shards implement, whether a balance check
      ever failed, and which shards have committed a block. */
  datatype History = History(
    injected: seq<Tx>, first: seq<Tx>, second: seq<Tx>, ledger: Accounts, starved: bool, committed: set<ShardId>)

  datatype System = System(shards: seq<Shard>, net: seq<Packet>, sup: Supervisor, hist: History)

  /** Messages on one link arrive in order; messages on different links may overtake. */
  datatype Link =
    | SupervisorLink(to: ShardId)
    | RelayLink(from: ShardId, to: ShardId)
    | ReadyLink(from: ShardId, to: ShardId)
    | ShipmentLink(from: ShardId, to: ShardId)
    | InfoLink(from: ShardId)

  function LinkOf(p: Packet): Link {
    match p
    case Inject(k, _) => SupervisorLink(k)
    case MapMsg(k, _) => SupervisorLink(k)
    case Relay(i, k, _, _) => RelayLink(i, k)
    case Ready(i, k, _) => ReadyLink(i, k)
    case Shipment(i, k, _) => ShipmentLink(i, k)
    case BlockInfo(i, _) => InfoLink(i)
  }

  datatype Step =
    | InjectStep(to: ShardId, txs: seq<Tx>)
    | IssueMapStep(m: PartitionMap)
    | DeliverStep(p: nat)
    | OpenBlockStep(id: ShardId, size: nat)
    | CommitBlockStep(id: ShardId)
    | DeclareReadyStep(id: ShardId)
    | ShipStep(id: ShardId)
    | OpenPartitionStep(id: ShardId, order: seq<ShardId>)
    | CommitPartitionStep(id: ShardId)

  ghost predicate Initial(cfg: Config, s: System) {
    |s.shards| == cfg.shards
    && (forall k :: 0 <= k < cfg.shards ==> s.shards[k] == FRESH_SHARD)
    && s.net == []
    && s.sup == Supervisor(map[], [], 0)
    && s.hist == History([], [], [], map[], false, {})
  }

  ghost predicate FirstOnLink(net: seq<Packet>, p: nat) {
    p < |net| && forall q :: 0 <= q < p ==> LinkOf(net[q]) != LinkOf(net[p])
  }

  ghost predicate Permutes(order: seq<ShardId>, keys: set<ShardId>) {
    (forall k :: k in order <==> k in keys)
    && forall i, j :: 0 <= i < j < |order| ==> order[i] != order[j]
  }

  /** The message is the next on its link and has a receiver. */
  ghost predicate CanArrive(s: System, p: nat) {
    FirstOnLink(s.net, p) && (!s.net[p].BlockInfo? ==> s.net[p].to < |s.shards|)
  }

  /** A partition map does not arrive while its receiver is collecting parcels. */
  predicate OnTime(s: System, p: nat)
    requires p < |s.net| && (s.net[p].MapMsg? ==> s.net[p].to < |s.shards|)
  {
    s.net[p].MapMsg? ==> !s.shards[s.net[p].to].stage.Collecting?
  }

  ghost predicate Deliverable(cfg: Config, s: System, p: nat) {
    CanArrive(s, p) && OnTime(s, p)
  }

  /** Shard `k` has received a relay of `i`, or `i` has committed no block yet. */
  predicate HeardOrSilent(s: System, i: ShardId, k: ShardId)
    requires k < |s.shards|
  {
    i in s.shards[k].heard || i !in s.hist.committed
  }

  /** What the program allows. */
  ghost predicate Possible(cfg: Config, s: System, step: Step) {
    match step
    case InjectStep(k, txs) =>
      k < |s.shards| && s.sup.curEpoch == |s.sup.issued|
      && forall tx :: tx in txs ==> !tx.relayed && !tx.hasBroker && HomeOf(cfg, s.sup.modifiedMap, tx.sender) == k
    case IssueMapStep(m) =>
      s.sup.curEpoch == |s.sup.issued| && forall a :: a in m ==> m[a] < cfg.shards
    case DeliverStep(p) => CanArrive(s, p)
    case OpenBlockStep(k, size) =>
      k < |s.shards| && s.shards[k].stage.Idle? && !s.shards[k].partitionOn && size <= |s.shards[k].queue|
    case CommitBlockStep(k) => k < |s.shards| && s.shards[k].stage.BlockOpen?
    case DeclareReadyStep(k) => k < |s.shards| && s.shards[k].stage.Idle? && s.shards[k].partitionOn
    case ShipStep(k) =>
      k < |s.shards| && s.shards[k].stage.AwaitingReady? && PartitionReady(s.shards[k], cfg.shards)
      && s.shards[k].maps != []
    case OpenPartitionStep(k, order) =>
      k < |s.shards| && s.shards[k].stage.Collecting? && s.shards[k].collectOver
      && Permutes(order, s.shards[k].received.Keys) && s.shards[k].round < |s.shards[k].maps|
    case CommitPartitionStep(k) => k < |s.shards| && s.shards[k].stage.PartitionOpen?
  }

  /** The two assumptions on timing: no map arrives while its receiver is collecting, and a shard does not
      pass the barrier before it has heard from every shard that has committed a block. */
  ghost predicate Timely(cfg: Config, s: System, step: Step)
    requires Possible(cfg, s, step)
  {
    match step
    case DeliverStep(p) => OnTime(s, p)
    case ShipStep(k) => forall i: nat :: i < |s.shards| && i != k ==> HeardOrSilent(s, i, k)
    case _ => true
  }

  ghost predicate Enabled(cfg: Config, s: System, step: Step) {
    Possible(cfg, s, step) && Timely(cfg, s, step)
  }

  function MapMsgs(m: PartitionMap, k: nat): seq<Packet> {
    if k == 0 then [] else MapMsgs(m, k - 1) + [MapMsg(k - 1, m)]
  }

  function Received(cfg: Config, s: Shard, pkt: Packet): Shard {
    match pkt
    case Inject(_, txs) => HandleInject(s, txs)
    case MapMsg(_, m) => HandlePartitionMsg(s, m)
    case Relay(i, _, txs, q) => HandleRelay(s, i, txs, q)
    case Ready(i, _, q) => HandleReady(s, i, q)
    case Shipment(i, _, parcel) => HandleShipment(s, cfg.shards, i, parcel)
    case BlockInfo(_, _) => s
  }

  /** The supervisor's epoch steps on only to its successor. */
  function EpochNoted(sup: Supervisor, epoch: nat): Supervisor {
    if sup.curEpoch + 1 == epoch then sup.(curEpoch := epoch) else sup
  }

  function Deliver(cfg: Config, s: System, p: nat): System
    requires p < |s.net|
    requires s.net[p].BlockInfo? || s.net[p].to < |s.shards|
  {
    var pkt, net := s.net[p], RemoveAt(s.net, p);
    if pkt.BlockInfo? then
      s.(net := net,
         sup := EpochNoted(s.sup, pkt.epoch))
    else
      s.(net := net, shards := s.shards[pkt.to := Received(cfg, s.shards[pkt.to], pkt)])
  }

  function CommitBlockAt(cfg: Config, s: System, k: ShardId): System
    requires k < |s.shards| && s.shards[k].stage.BlockOpen?
  {
    var sh := s.shards[k];
    var body, site := sh.stage.body, SiteOf(cfg, sh, k);
    s.(shards := s.shards[k := CommitBlock(cfg, sh, k, body)],
       net := s.net + BlockMsgs(cfg, sh, k, body),
       hist := s.hist.(
         first := s.hist.first + Firsts(body),
         second := s.hist.second + Seconds(site, body),
         ledger := Execute(site, s.hist.ledger, body),
         starved := s.hist.starved || SomeStarve(site, sh.accounts, body),
         committed := s.hist.committed + {k}))
  }

  function CommitPartitionAt(cfg: Config, s: System, k: ShardId): System
    requires k < |s.shards| && s.shards[k].stage.PartitionOpen?
  {
    var sh := s.shards[k];
    var atm := sh.stage.atm;
    s.(shards := s.shards[k := CommitPartition(cfg, sh, k, atm)],
       hist := s.hist.(ledger := AddAccounts(Site(cfg, sh.pmap + atm.pmap, k), s.hist.ledger, atm.accounts)))
  }

  ghost function Do(cfg: Config, s: System, step: Step): System
    requires Possible(cfg, s, step)
  {
    match step
    case InjectStep(k, txs) =>
      s.(net := s.net + [Inject(k, txs)], hist := s.hist.(injected := s.hist.injected + txs))
    case IssueMapStep(m) =>
      s.(net := s.net + MapMsgs(m, cfg.shards),
         sup := s.sup.(modifiedMap := s.sup.modifiedMap + m, issued := s.sup.issued + [m]))
    case DeliverStep(p) => Deliver(cfg, s, p)
    case OpenBlockStep(k, size) => s.(shards := s.shards[k := OpenBlock(s.shards[k], size)])
    case CommitBlockStep(k) => CommitBlockAt(cfg, s, k)
    case DeclareReadyStep(k) =>
      s.(shards := s.shards[k := DeclareReady(s.shards[k], k)],
         net := s.net + ReadyMsgs(s.shards[k], k, cfg.shards))
    case ShipStep(k) =>
      s.(shards := s.shards[k := Ship(cfg, s.shards[k], k)],
         net := s.net + Shipments(Parcels(cfg, s.shards[k], k), k, cfg.shards))
    case OpenPartitionStep(k, order) => s.(shards := s.shards[k := OpenPartition(s.shards[k], order)])
    case CommitPartitionStep(k) => CommitPartitionAt(cfg, s, k)
  }

  /** A run: from an initial state, each state follows from the one before by an enabled step. */
  ghost predicate IsRun(cfg: Config, run: seq<System>) {
    |run| > 0 && Initial(cfg, run[0])
    && forall i: nat :: i + 1 < |run| ==> NextFollows(cfg, run, i)
  }

  ghost predicate NextFollows(cfg: Config, run: seq<System>, i: nat)
    requires i + 1 < |run|
  {
    Follows(cfg, run[i], run[i + 1])
  }

  ghost predicate Follows(cfg: Config, s: System, t: System) {
    exists step :: Enabled(cfg, s, step) && Do(cfg, s, step) == t
  }

  ghost predicate Reachable(cfg: Config, s: System) {
    exists run :: IsRun(cfg, run) && run[|run| - 1] == s
  }

  /** A run of what the program allows, whatever the timing. */
  ghost predicate IsLooseRun(cfg: Config, run: seq<System>) {
    |run| > 0 && Initial(cfg, run[0])
    && forall i: nat :: i + 1 < |run| ==> NextMayFollow(cfg, run, i)
  }

  ghost predicate NextMayFollow(cfg: Config, run: seq<System>, i: nat)
    requires i + 1 < |run|
  {
    MayFollow(cfg, run[i], run[i + 1])
  }

  ghost predicate MayFollow(cfg: Config, s: System, t: System) {
    exists step :: Possible(cfg, s, step) && Do(cfg, s, step) == t
  }

  ghost predicate Attainable(cfg: Config, s: System) {
    exists run :: IsLooseRun(cfg, run) && run[|run| - 1] == s
  }
}
