/**
 The chain of one replica as a value, and why replicas that commit the same requests in the same order
 hold the same blocks and the same state, although each has its own database of states.
 */
module Replicas {
  import opened Basics
  import opened Ledger
  import opened Shards
  import opened Blocks

  /** What a block after the genesis block did. */
  datatype Entry =
    | Executed(body: seq<Tx>)
    | Migrated(pmap: PartitionMap, added: Accounts)

  datatype Replayed = Replayed(accounts: Accounts, pmap: PartitionMap)

  /** The state a log of blocks and partition steps leads to. */
  function Replay(cfg: Config, id: ShardId, log: seq<Entry>): Replayed {
    if log == [] then Replayed(map[], map[])
    else
      var s := Replay(cfg, id, log[..|log| - 1]);
      match log[|log| - 1]
      case Executed(body) => s.(accounts := Execute(Site(cfg, s.pmap, id), s.accounts, body))
      case Migrated(m, added) =>
        Replayed(AddAccounts(Site(cfg, s.pmap + m, id), s.accounts, added), s.pmap + m)
  }

  /** The accounts to add, as the map the partition request describes. */
  function Listed(ac: seq<Addr>, states: seq<AccountState>): Accounts
    requires |ac| == |states|
  {
    if ac == [] then map[]
    else Listed(ac[..|ac| - 1], states[..|ac| - 1])[ac[|ac| - 1] := states[|ac| - 1]]
  }

  /** The log of a chain that holds blocks only. */
  function ExecutedLog(blocks: seq<Block>): (log: seq<Entry>)
    ensures |log| == if blocks == [] then 0 else |blocks| - 1
  {
    if |blocks| <= 1 then [] else ExecutedLog(blocks[..|blocks| - 1]) + [Executed(blocks[|blocks| - 1].body)]
  }

  // ---------- One replica ----------

  /** Blocks, the states that have a trie in the database, partition map, and what each block did. */
  datatype Copy = Copy(blocks: seq<Block>, known: set<Accounts>, pmap: PartitionMap, log: seq<Entry>)

  const FRESH_COPY := Copy([GENESIS], {map[]}, map[], [])

  function Last(blocks: seq<Block>): Block {
    if blocks == [] then GENESIS else blocks[|blocks| - 1]
  }

  datatype ChainRequest =
    | BlockRequest(b: Block)
    | PartitionRequest(m: PartitionMap, ac: seq<Addr>, states: seq<AccountState>)

  /** What a replica does with its chain: mine a block it may propose, or commit a request. */
  datatype Act = Mine(body: seq<Tx>) | Commit(req: ChainRequest)

  predicate WellFormed(req: ChainRequest) {
    req.PartitionRequest? ==> |req.ac| == |req.states|
  }

  /** The block a partition request adds: it depends on the tip, the map and the request only. */
  function PartitionBlock(site: Site, tip: Block, added: Accounts): Block {
    Mined(tip, [], AddAccounts(site, tip.header.stateRoot, added), 0)
  }

  /** Adding a block; nothing is left when the replica crashes. */
  function AddTo(cfg: Config, id: ShardId, c: Copy, b: Block): Option<Copy> {
    match Adding(Last(c.blocks), c.known, b)
    case Refused => Some(c)
    case Crashed => None
    case Added =>
      Some(c.(blocks := c.blocks + [b], known := KnownAfterAdd(Site(cfg, c.pmap, id), Last(c.blocks), c.known, b),
              log := c.log + [Executed(b.body)]))
  }

  function Migrate(cfg: Config, id: ShardId, c: Copy, m: PartitionMap, ac: seq<Addr>,
      states: seq<AccountState>): Option<Copy>
    requires |ac| == |states|
  {
    var tip, pmap := Last(c.blocks), c.pmap + m;
    var b := PartitionBlock(Site(cfg, pmap, id), tip, Listed(ac, states));
    if ac == [] then Some(Copy(c.blocks + [b], c.known, pmap, c.log + [Migrated(m, Listed(ac, states))]))
    else if tip.header.stateRoot !in c.known then None
    else Some(Copy(c.blocks + [b], c.known + {b.header.stateRoot}, pmap, c.log + [Migrated(m, Listed(ac, states))]))
  }

  function Perform(cfg: Config, id: ShardId, c: Copy, act: Act): Option<Copy> {
    match act
    case Mine(body) =>
      if CanExecute(Last(c.blocks), c.known, body) then
        Some(c.(known := KnownAfter(Site(cfg, c.pmap, id), Last(c.blocks), c.known, body)))
      else None
    case Commit(BlockRequest(b)) => AddTo(cfg, id, c, b)
    case Commit(PartitionRequest(m, ac, states)) =>
      if |ac| == |states| then Migrate(cfg, id, c, m, ac, states) else None
  }

  function PerformAll(cfg: Config, id: ShardId, acts: seq<Act>): Option<Copy> {
    if acts == [] then Some(FRESH_COPY)
    else
      match PerformAll(cfg, id, acts[..|acts| - 1])
      case None => None
      case Some(c) => Perform(cfg, id, c, acts[|acts| - 1])
  }

  /** The requests committed, in order. */
  function Committed(acts: seq<Act>): seq<ChainRequest> {
    if acts == [] then []
    else
      var last := acts[|acts| - 1];
      Committed(acts[..|acts| - 1]) + if last.Commit? then [last.req] else []
  }

  // ---------- The chain the requests describe ----------

  /** Blocks, partition map and log, without any database. */
  datatype Plain = Plain(blocks: seq<Block>, pmap: PartitionMap, log: seq<Entry>)

  function Extend(cfg: Config, id: ShardId, p: Plain, req: ChainRequest): Plain
    requires WellFormed(req)
  {
    match req
    case BlockRequest(b) => Plain(p.blocks + [b], p.pmap, p.log + [Executed(b.body)])
    case PartitionRequest(m, ac, states) =>
      var added := Listed(ac, states);
      Plain(p.blocks + [PartitionBlock(Site(cfg, p.pmap + m, id), Last(p.blocks), added)], p.pmap + m,
            p.log + [Migrated(m, added)])
  }

  ghost predicate Sound(cfg: Config, id: ShardId, reqs: seq<ChainRequest>)
    decreases |reqs|, 0
  {
    reqs == []
    || (Sound(cfg, id, reqs[..|reqs| - 1])
        && Proper(cfg, id, Described(cfg, id, reqs[..|reqs| - 1]), reqs[|reqs| - 1]))
  }

  ghost function Described(cfg: Config, id: ShardId, reqs: seq<ChainRequest>): Plain
    requires Sound(cfg, id, reqs)
    decreases |reqs|, 1
  {
    if reqs == [] then Plain([GENESIS], map[], [])
    else Extend(cfg, id, Described(cfg, id, reqs[..|reqs| - 1]), reqs[|reqs| - 1])
  }

  /** A block request was mined on the chain it continues. */
  predicate Proper(cfg: Config, id: ShardId, p: Plain, req: ChainRequest) {
    WellFormed(req)
    && (req.BlockRequest? ==>
          Fits(Last(p.blocks), req.b) && Executes(Site(cfg, p.pmap, id), Last(p.blocks), req.b))
  }

  /** The replica holds what the requests describe, and can read the state of its tip. */
  predicate Holds(c: Copy, p: Plain) {
    c.blocks == p.blocks && c.pmap == p.pmap && c.log == p.log && Last(c.blocks).header.stateRoot in c.known
  }

  lemma CommitHolds(cfg: Config, id: ShardId, c: Copy, p: Plain, req: ChainRequest)
    requires Holds(c, p) && Proper(cfg, id, p, req)
    ensures var d := Perform(cfg, id, c, Commit(req)); d.Some? && Holds(d.value, Extend(cfg, id, p, req))
  {
    match req
    case BlockRequest(b) => AddKeepsReadable(Site(cfg, c.pmap, id), Last(c.blocks), c.known, b);
    case PartitionRequest(m, ac, states) =>
      if ac == [] {
        assert AddAccounts(Site(cfg, p.pmap + m, id), Last(p.blocks).header.stateRoot, map[])
          == Last(p.blocks).header.stateRoot;
      }
  }

  /** A replica that commits requests mined on the chain they continue never crashes and never refuses;
      it holds exactly the chain they describe, whatever else it mined and stored in between. */
  lemma {:induction false} CommitsDecide(cfg: Config, id: ShardId, acts: seq<Act>)
    requires Sound(cfg, id, Committed(acts))
    ensures var c := PerformAll(cfg, id, acts); c.Some? && Holds(c.value, Described(cfg, id, Committed(acts)))
  {
    if acts != [] {
      var init, last := acts[..|acts| - 1], acts[|acts| - 1];
      var reqs := Committed(init);
      if last.Commit? {
        assert Committed(acts)[..|Committed(acts)| - 1] == reqs;
        CommitsDecide(cfg, id, init);
        CommitHolds(cfg, id, PerformAll(cfg, id, init).value, Described(cfg, id, reqs), last.req);
      } else {
        assert Committed(acts) == reqs;
        CommitsDecide(cfg, id, init);
      }
    }
  }

  /** The state under the last root of the described chain is what its log leads to. */
  lemma {:induction false} DescribedIsReplay(cfg: Config, id: ShardId, reqs: seq<ChainRequest>)
    requires Sound(cfg, id, reqs)
    ensures var p := Described(cfg, id, reqs);
      Replays(cfg, id, p) && |p.log| == |reqs|
  {
    if reqs != [] {
      var init := reqs[..|reqs| - 1];
      DescribedIsReplay(cfg, id, init);
      ExtendIsReplay(cfg, id, Described(cfg, id, init), reqs[|reqs| - 1]);
    }
  }

  lemma ReplaySnoc(cfg: Config, id: ShardId, log: seq<Entry>, e: Entry)
    ensures var s, t := Replay(cfg, id, log), Replay(cfg, id, log + [e]);
      match e
      case Executed(body) => t == Replayed(Execute(Site(cfg, s.pmap, id), s.accounts, body), s.pmap)
      case Migrated(m, added) => t == Replayed(AddAccounts(Site(cfg, s.pmap + m, id), s.accounts, added), s.pmap + m)
  {
    assert (log + [e])[..|log + [e]| - 1] == log;
  }

  /** The state under the last root is what the log leads to. */
  predicate Replays(cfg: Config, id: ShardId, p: Plain) {
    Replayed(Last(p.blocks).header.stateRoot, p.pmap) == Replay(cfg, id, p.log)
  }

  lemma ExtendIsReplay(cfg: Config, id: ShardId, p: Plain, req: ChainRequest)
    requires Proper(cfg, id, p, req) && Replays(cfg, id, p)
    ensures Replays(cfg, id, Extend(cfg, id, p, req)) && |Extend(cfg, id, p, req).log| == |p.log| + 1
  {
    match req
    case BlockRequest(b) => ReplaySnoc(cfg, id, p.log, Executed(b.body));
    case PartitionRequest(m, ac, states) => ReplaySnoc(cfg, id, p.log, Migrated(m, Listed(ac, states)));
  }

  /** Replicas that committed the same requests in the same order have the same blocks, the partition
      blocks included, the same partition map and the same state, which is the replay of the log. */
  lemma ReplicasAgree(cfg: Config, id: ShardId, xs: seq<Act>, ys: seq<Act>)
    requires Committed(xs) == Committed(ys) && Sound(cfg, id, Committed(xs))
    ensures var x, y := PerformAll(cfg, id, xs), PerformAll(cfg, id, ys);
      x.Some? && y.Some? && x.value.blocks == y.value.blocks && x.value.pmap == y.value.pmap
      && Replayed(Last(x.value.blocks).header.stateRoot, x.value.pmap) == Replay(cfg, id, x.value.log)
      && |x.value.blocks| == |Committed(xs)| + 1
  {
    CommitsDecide(cfg, id, xs);
    CommitsDecide(cfg, id, ys);
    DescribedIsReplay(cfg, id, Committed(xs));
    DescribedHeight(cfg, id, Committed(xs));
  }

  lemma {:induction false} DescribedHeight(cfg: Config, id: ShardId, reqs: seq<ChainRequest>)
    requires Sound(cfg, id, reqs)
    ensures |Described(cfg, id, reqs).blocks| == |reqs| + 1
  {
    if reqs != [] {
      DescribedHeight(cfg, id, reqs[..|reqs| - 1]);
    }
  }
}
