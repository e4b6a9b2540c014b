/**
 The normal case of PBFT inside one shard (relay mode): what a replica does with each message,
 a cluster in which some replicas are arbitrary, and a network that reorders, duplicates and
 loses messages. Digests are injective, so a digest is the request it digests.
 */
module Pbft {
  import opened Basics
  import opened Ledger
  import opened Blocks

  datatype Request = Request(block: Block, time: nat)
  type Digest = Request
  type NodeId = nat
  type Votes = map<Digest, set<NodeId>>

  const LEADER: NodeId := 0

  datatype Message =
    | PrePrepare(req: Request, digest: Digest, seqNo: nat)
    | Prepare(from: NodeId, digest: Digest, seqNo: nat)
    | Commit(from: NodeId, digest: Digest, seqNo: nat)

  /** `known` are the states that have a trie in the replica's database; a crashed replica does nothing more. */
  datatype Node = Node(
    seqId: nat, pool: set<Digest>, prepares: Votes, commits: Votes, commitSent: set<Digest>, replied: set<Digest>,
    chain: seq<Block>, known: set<Accounts>, locked: bool, crashed: bool)

  const FRESH_NODE := Node(1, {}, map[], map[], {}, {}, [GENESIS], {map[]}, false, false)

  /** A replica after a message, what it broadcasts, and the request it executes, if any. */
  datatype Reaction = Reaction(node: Node, sends: Option<Message>, executes: Option<Digest>)

  /** A shard's cluster: its size, its arbitrary replicas, and where it executes; `f` is derived as in
      the program. No accounts migrate, so homes are the default ones. */
  datatype Group = Group(n: nat, byzantine: set<NodeId>, cfg: Config, shard: ShardId) {
    function Here(): Site {
      Site(cfg, map[], shard)
    }

    function F(): (f: nat)
      ensures n > 0 ==> 3 * f + 1 <= n < 3 * f + 4
    {
      if n == 0 then 0 else (n - 1) / 3
    }

    predicate Honest(i: NodeId) {
      i < n && i !in byzantine
    }

    ghost predicate Valid() {
      n > 0 && Honest(LEADER) && |byzantine| <= F() && forall i :: i in byzantine ==> i < n
    }
  }

  function VotesFor(votes: Votes, d: Digest): set<NodeId> {
    if d in votes then votes[d] else {}
  }

  function AddVote(votes: Votes, d: Digest, from: NodeId): Votes {
    votes[d := VotesFor(votes, d) + {from}]
  }

  function Tip(chain: seq<Block>): Block {
    if chain == [] then GENESIS else chain[|chain| - 1]
  }

  /** Appending a block that does not fit changes nothing. */
  function AddBlock(chain: seq<Block>, b: Block): seq<Block> {
    if Fits(Tip(chain), b) then chain + [b] else chain
  }

  /** The block the replica mines on its chain. */
  function MinedOn(g: Group, chain: seq<Block>, body: seq<Tx>): Block {
    Mined(Tip(chain), body, Execute(g.Here(), Tip(chain).header.stateRoot, body), LEADER)
  }

  // ---------- Handlers ----------

  function OnPrePrepare(n: Node, id: NodeId, req: Request, digest: Digest, q: nat): Reaction {
    if q < n.seqId || req != digest then Reaction(n, None, None)
    else
      var t := n.(pool := n.pool + {req});
      if n.seqId < q || !IsValidBlock(Tip(n.chain), req.block) then Reaction(t, None, None)
      else Reaction(t, Some(Prepare(id, digest, q)), None)
  }

  function OnPrepare(g: Group, n: Node, id: NodeId, from: NodeId, d: Digest, q: nat): Reaction {
    if q < n.seqId || d !in n.pool || n.seqId < q then Reaction(n, None, None)
    else
      var t := n.(prepares := AddVote(n.prepares, d, from));
      if |VotesFor(t.prepares, d)| >= 2 * g.F() + 1 && d !in n.commitSent then
        Reaction(t.(commitSent := t.commitSent + {d}), Some(Commit(id, d, q)), None)
      else Reaction(t, None, None)
  }

  /** The first time a request has its commits: it is executed if the replica has it. The sequence number
      advances even when the block does not fit. */
  function Reply(g: Group, n: Node, id: NodeId, d: Digest): Reaction {
    var t := n.(replied := n.replied + {d}, locked := if id == LEADER then false else n.locked);
    if d !in n.pool then Reaction(t, None, None)
    else if Adding(Tip(n.chain), n.known, d.block) == Crashed then Reaction(n.(crashed := true), None, None)
    else
      Reaction(t.(chain := AddBlock(n.chain, d.block), seqId := n.seqId + 1,
                  known := KnownAfterAdd(g.Here(), Tip(n.chain), n.known, d.block)), None, Some(d))
  }

  /** Unlike the other two phases a commit is counted whatever its sequence number, unless that
      is below the replica's own. */
  function OnCommit(g: Group, n: Node, id: NodeId, from: NodeId, d: Digest, q: nat): Reaction {
    if q < n.seqId then Reaction(n, None, None)
    else
      var t := n.(commits := AddVote(n.commits, d, from));
      if |VotesFor(t.commits, d)| >= 2 * g.F() + 1 && d !in n.replied then Reply(g, t, id, d)
      else Reaction(t, None, None)
  }

  function React(g: Group, n: Node, id: NodeId, m: Message): Reaction {
    match m
    case PrePrepare(req, digest, q) => OnPrePrepare(n, id, req, digest, q)
    case Prepare(from, d, q) => OnPrepare(g, n, id, from, d, q)
    case Commit(from, d, q) => OnCommit(g, n, id, from, d, q)
  }

  /** The leader takes the lock, mines a block, which executes it, and puts the request in the pool. */
  function Propose(g: Group, n: Node, r: Request): Node {
    n.(pool := n.pool + {r}, locked := true, known := KnownAfter(g.Here(), Tip(n.chain), n.known, r.block.body))
  }

  // ---------- The cluster ----------

  /** `sent` holds every message an honest replica ever broadcast. The last two fields are not
      part of the program: the leader's proposals, and what each replica executed, in order. */
  datatype Cluster = Cluster(nodes: seq<Node>, sent: set<Message>, proposals: seq<Request>, executed: seq<seq<Digest>>)

  datatype Event =
    | ProposeEvent(r: Request)
    | ReceiveEvent(id: NodeId, m: Message)

  ghost predicate Start(g: Group, c: Cluster) {
    |c.nodes| == g.n && |c.executed| == g.n && c.sent == {} && c.proposals == []
    && (forall i :: 0 <= i < g.n ==> c.nodes[i] == FRESH_NODE && c.executed[i] == [])
  }

  /** A replica can receive anything that was sent to anyone, any number of times, and any vote an
      arbitrary replica makes up; proposals come only from the leader. */
  predicate Available(g: Group, c: Cluster, m: Message) {
    m in c.sent || (!m.PrePrepare? && m.from in g.byzantine)
  }

  /** The request carries a block the leader mined on its own chain, with any body. */
  predicate MayPropose(g: Group, leader: Node, r: Request) {
    !leader.locked && !leader.crashed && CanExecute(Tip(leader.chain), leader.known, r.block.body)
    && r.block == MinedOn(g, leader.chain, r.block.body)
  }

  predicate Happens(g: Group, c: Cluster, e: Event) {
    match e
    case ProposeEvent(r) =>
      LEADER < |c.nodes| && MayPropose(g, c.nodes[LEADER], r)
    case ReceiveEvent(i, m) =>
      i < |c.nodes| && i < |c.executed| && g.Honest(i) && Available(g, c, m) && !c.nodes[i].crashed
  }

  function After(g: Group, c: Cluster, e: Event): Cluster
    requires Happens(g, c, e)
  {
    match e
    case ProposeEvent(r) =>
      var leader := c.nodes[LEADER];
      c.(nodes := c.nodes[LEADER := Propose(g, leader, r)],
         sent := c.sent + {PrePrepare(r, r, leader.seqId)},
         proposals := c.proposals + [r])
    case ReceiveEvent(i, m) =>
      var reaction := React(g, c.nodes[i], i, m);
      c.(nodes := c.nodes[i := reaction.node],
         sent := if reaction.sends.Some? then c.sent + {reaction.sends.value} else c.sent,
         executed := if reaction.executes.Some? then c.executed[i := c.executed[i] + [reaction.executes.value]]
                     else c.executed)
  }

  ghost predicate Leads(g: Group, c: Cluster, d: Cluster) {
    exists e :: Happens(g, c, e) && After(g, c, e) == d
  }

  ghost predicate IsHistory(g: Group, run: seq<Cluster>) {
    |run| > 0 && Start(g, run[0]) && forall i: nat :: i + 1 < |run| ==> NextLeads(g, run, i)
  }

  ghost predicate NextLeads(g: Group, run: seq<Cluster>, i: nat)
    requires i + 1 < |run|
  {
    Leads(g, run[i], run[i + 1])
  }

  ghost predicate Occurs(g: Group, c: Cluster) {
    exists run :: IsHistory(g, run) && run[|run| - 1] == c
  }
}
