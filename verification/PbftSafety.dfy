/**
 Safety of the cluster in one view, with at most `F()` arbitrary replicas and an honest leader:
 chains agree, an executed block is certified by honest replicas, and the leader's lock discipline.
 */
module PbftSafety {
  import opened Basics
  import opened Blocks
  import opened Pbft
  import Replicas

  // ---------- The leader's proposals form a chain ----------

  /** Block number `j` of the chain the leader builds. */
  function BlockAt(proposals: seq<Request>, j: nat): Block
    requires j <= |proposals|
  {
    if j == 0 then GENESIS else proposals[j - 1].block
  }

  predicate LinkAt(proposals: seq<Request>, j: nat)
    requires j < |proposals|
  {
    Fits(BlockAt(proposals, j), proposals[j].block)
  }

  ghost predicate Linked(proposals: seq<Request>) {
    forall j: nat :: j < |proposals| ==> LinkAt(proposals, j)
  }

  /** Every proposed block carries the state its body leads to, and its header commits to its body. */
  ghost predicate Earned(g: Group, proposals: seq<Request>) {
    forall j: nat :: j < |proposals| ==> EarnedAt(g, proposals, j)
  }

  predicate EarnedAt(g: Group, proposals: seq<Request>, j: nat)
    requires j < |proposals|
  {
    Executes(g.Here(), BlockAt(proposals, j), proposals[j].block) && Sealed(proposals[j].block)
  }

  lemma {:induction false} NumberIs(proposals: seq<Request>, j: nat)
    requires Linked(proposals) && j <= |proposals|
    ensures BlockAt(proposals, j).header.number == j
  {
    if j > 0 {
      NumberIs(proposals, j - 1);
      assert LinkAt(proposals, j - 1);
    }
  }

  lemma ProposalNumber(proposals: seq<Request>, d: Digest)
    requires Linked(proposals) && d in proposals
    ensures 0 < d.block.header.number <= |proposals| && proposals[d.block.header.number - 1] == d
    ensures d.block.header.parent == Some(BlockAt(proposals, d.block.header.number - 1).header)
  {
    var j :| 0 <= j < |proposals| && proposals[j] == d;
    NumberIs(proposals, j + 1);
    assert LinkAt(proposals, j);
  }

  /** The chain is a prefix of what the leader proposed. */
  ghost predicate Follows(chain: seq<Block>, proposals: seq<Request>) {
    0 < |chain| <= |proposals| + 1 && forall j: nat :: j < |chain| ==> OnChain(chain, proposals, j)
  }

  predicate OnChain(chain: seq<Block>, proposals: seq<Request>, j: nat)
    requires j < |chain| <= |proposals| + 1
  {
    chain[j] == BlockAt(proposals, j)
  }

  lemma TipIs(chain: seq<Block>, proposals: seq<Request>)
    requires Linked(proposals) && Follows(chain, proposals)
    ensures Tip(chain) == BlockAt(proposals, |chain| - 1) && Tip(chain).header.number == |chain| - 1
  {
    assert OnChain(chain, proposals, |chain| - 1);
    NumberIs(proposals, |chain| - 1);
  }

  lemma AddFollows(chain: seq<Block>, proposals: seq<Request>, d: Digest)
    requires Linked(proposals) && Follows(chain, proposals) && d in proposals
    ensures Follows(AddBlock(chain, d.block), proposals)
    ensures Fits(Tip(chain), d.block) <==> d.block.header.number == |chain|
    ensures AddBlock(chain, d.block) == if d.block.header.number == |chain| then chain + [d.block] else chain
  {
    TipIs(chain, proposals);
    ProposalNumber(proposals, d);
    var after := AddBlock(chain, d.block);
    forall j: nat | j < |after| ensures |after| <= |proposals| + 1 && OnChain(after, proposals, j) {
      if j < |chain| {
        assert OnChain(chain, proposals, j);
      }
    }
  }

  // ---------- The invariant ----------

  ghost predicate Prepared(sent: set<Message>, v: NodeId, d: Digest) {
    exists q :: Prepare(v, d, q) in sent
  }

  ghost predicate Committed(sent: set<Message>, v: NodeId, d: Digest) {
    exists q :: Commit(v, d, q) in sent
  }

  ghost predicate PrepareVotesOk(g: Group, sent: set<Message>, votes: Votes) {
    forall d, v :: v in VotesFor(votes, d) ==> v in g.byzantine || Prepared(sent, v, d)
  }

  ghost predicate CommitVotesOk(g: Group, sent: set<Message>, votes: Votes) {
    forall d, v :: v in VotesFor(votes, d) ==> v in g.byzantine || Committed(sent, v, d)
  }

  ghost predicate VotesOk(g: Group, sent: set<Message>, n: Node) {
    PrepareVotesOk(g, sent, n.prepares) && CommitVotesOk(g, sent, n.commits)
    && forall d :: d in n.commitSent ==> d in n.pool && |VotesFor(n.prepares, d)| >= 2 * g.F() + 1
  }

  ghost predicate ExecutedOk(g: Group, n: Node, executed: seq<Digest>) {
    n.seqId == |executed| + 1
    && (forall d :: d in executed ==> d in n.pool && d in n.replied && |VotesFor(n.commits, d)| >= 2 * g.F() + 1)
    && (forall i, j :: 0 <= i < j < |executed| ==> executed[i] != executed[j])
  }

  ghost predicate ChainOk(proposals: seq<Request>, n: Node, executed: seq<Digest>) {
    Follows(n.chain, proposals)
    && (forall d :: d in n.pool ==> d in proposals)
    && (forall j: nat :: j + 1 < |n.chain| ==> WasExecuted(proposals, executed, j))
    && |n.chain| <= |executed| + 1
    && (|n.chain| == |executed| + 1 <==> executed <= proposals)
  }

  predicate WasExecuted(proposals: seq<Request>, executed: seq<Digest>, j: nat) {
    j < |proposals| && proposals[j] in executed
  }

  /** The replica runs, and can read the state of its tip. */
  predicate Runs(n: Node) {
    !n.crashed && Tip(n.chain).header.stateRoot in n.known
  }

  ghost predicate NodeOk(g: Group, sent: set<Message>, proposals: seq<Request>, n: Node, executed: seq<Digest>) {
    VotesOk(g, sent, n) && ExecutedOk(g, n, executed) && ChainOk(proposals, n, executed) && Runs(n)
  }

  ghost predicate NodeAt(g: Group, c: Cluster, i: NodeId)
    requires i < |c.nodes| && i < |c.executed|
  {
    NodeOk(g, c.sent, c.proposals, c.nodes[i], c.executed[i])
  }

  /** The leader has executed exactly its earlier proposals, and holds the lock exactly while one
      proposal is outstanding. */
  ghost predicate LeaderOk(proposals: seq<Request>, n: Node, executed: seq<Digest>) {
    |n.chain| == n.seqId
    && 0 < n.seqId <= |proposals| + 1
    && |proposals| == n.seqId - 1 + (if n.locked then 1 else 0)
    && executed == proposals[..n.seqId - 1]
    && (forall d :: d in proposals ==> d in n.pool)
    && (forall d :: d in n.replied ==> d in executed)
  }

  ghost predicate MessageOk(g: Group, c: Cluster, m: Message) {
    match m
    case PrePrepare(r, d, q) => r == d && 0 < q <= |c.proposals| && c.proposals[q - 1] == r
    case Prepare(v, d, _) =>
      g.Honest(v) && v < |c.nodes| && d in c.proposals && d.block.header.number <= |c.nodes[v].chain|
    case Commit(v, d, _) => g.Honest(v) && v < |c.nodes| && d in c.nodes[v].commitSent
  }

  ghost predicate MessagesOk(g: Group, c: Cluster) {
    forall m :: m in c.sent ==> MessageOk(g, c, m)
  }

  ghost predicate NodesOk(g: Group, c: Cluster) {
    |c.nodes| == g.n && |c.executed| == g.n
    && forall i: nat :: i < |c.nodes| && i < |c.executed| && g.Honest(i) ==> NodeAt(g, c, i)
  }

  ghost predicate Safe(g: Group, c: Cluster) {
    g.Valid() && Linked(c.proposals) && Earned(g, c.proposals) && NodesOk(g, c) && MessagesOk(g, c)
    && LeaderOk(c.proposals, c.nodes[LEADER], c.executed[LEADER])
  }

  lemma KnownNode(g: Group, c: Cluster, i: NodeId)
    requires NodesOk(g, c) && g.Honest(i)
    ensures NodeOk(g, c.sent, c.proposals, c.nodes[i], c.executed[i])
  {
    assert NodeAt(g, c, i);
  }

  lemma KnownMessage(g: Group, c: Cluster, m: Message)
    requires MessagesOk(g, c) && m in c.sent
    ensures MessageOk(g, c, m)
  {
  }

  // ---------- Quorums ----------

  /** Of `2f + 1` voters at least `f + 1` are honest. */
  lemma HonestMajority(g: Group, voters: set<NodeId>)
    requires |g.byzantine| <= g.F() && |voters| >= 2 * g.F() + 1
    ensures |voters - g.byzantine| >= g.F() + 1
  {
    assert voters == (voters - g.byzantine) + (voters * g.byzantine);
    assert |voters * g.byzantine| <= |g.byzantine| by {
      assert g.byzantine == (voters * g.byzantine) + (g.byzantine - voters);
    }
  }

  lemma SomeHonest(g: Group, voters: set<NodeId>) returns (v: NodeId)
    requires |g.byzantine| <= g.F() && |voters| >= 2 * g.F() + 1
    ensures v in voters && v !in g.byzantine
  {
    HonestMajority(g, voters);
    var honest := voters - g.byzantine;
    assert honest != {};
    v :| v in honest;
  }

  /** A request with enough commit votes anywhere was proposed. */
  lemma CommittedIsProposed(g: Group, c: Cluster, votes: Votes, d: Digest)
    requires Safe(g, c) && CommitVotesOk(g, c.sent, votes) && |VotesFor(votes, d)| >= 2 * g.F() + 1
    ensures d in c.proposals
  {
    var v := SomeHonest(g, VotesFor(votes, d));
    var q :| Commit(v, d, q) in c.sent;
    KnownMessage(g, c, Commit(v, d, q));
    KnownNode(g, c, v);
  }

  // ---------- More messages and more proposals ----------

  lemma VotesGrow(g: Group, sent: set<Message>, more: set<Message>, n: Node)
    requires VotesOk(g, sent, n) && sent <= more
    ensures VotesOk(g, more, n)
  {
    forall d, v | v in VotesFor(n.prepares, d) && v !in g.byzantine ensures Prepared(more, v, d) {
      assert Prepared(sent, v, d);
      var q :| Prepare(v, d, q) in sent;
      assert Prepare(v, d, q) in more;
    }
    forall d, v | v in VotesFor(n.commits, d) && v !in g.byzantine ensures Committed(more, v, d) {
      assert Committed(sent, v, d);
      var q :| Commit(v, d, q) in sent;
      assert Commit(v, d, q) in more;
    }
  }

  lemma FollowsGrows(chain: seq<Block>, proposals: seq<Request>, r: Request)
    requires Follows(chain, proposals)
    ensures Follows(chain, proposals + [r])
  {
    forall j: nat | j < |chain| ensures OnChain(chain, proposals + [r], j) {
      assert OnChain(chain, proposals, j);
    }
  }

  /** A new proposal was not executed yet. */
  lemma NewProposal(proposals: seq<Request>, r: Request, executed: seq<Digest>)
    requires Linked(proposals) && Fits(BlockAt(proposals, |proposals|), r.block)
    requires forall d :: d in executed ==> d in proposals
    ensures executed <= proposals + [r] <==> executed <= proposals
  {
    NumberIs(proposals, |proposals|);
    assert r !in proposals by {
      if r in proposals {
        ProposalNumber(proposals, r);
      }
    }
    if executed <= proposals + [r] {
      PrefixSplits(executed, proposals, r);
    }
  }

  lemma PrefixSplits(xs: seq<Digest>, ys: seq<Digest>, last: Digest)
    requires xs <= ys + [last]
    ensures xs <= ys || last in xs
  {
    if |xs| > |ys| {
      assert xs[|ys|] == last;
    }
  }

  lemma ChainGrows(proposals: seq<Request>, r: Request, n: Node, executed: seq<Digest>)
    requires ChainOk(proposals, n, executed)
    requires Linked(proposals) && Fits(BlockAt(proposals, |proposals|), r.block)
    requires forall d :: d in executed ==> d in proposals
    ensures ChainOk(proposals + [r], n, executed)
  {
    NewProposal(proposals, r, executed);
    FollowsGrows(n.chain, proposals, r);
    forall j: nat | j + 1 < |n.chain| ensures WasExecuted(proposals + [r], executed, j) {
      assert WasExecuted(proposals, executed, j);
    }
  }

  lemma LinkedGrows(proposals: seq<Request>, r: Request)
    requires Linked(proposals) && Fits(BlockAt(proposals, |proposals|), r.block)
    ensures Linked(proposals + [r])
  {
    forall j: nat | j < |proposals| + 1 ensures LinkAt(proposals + [r], j) {
      if j < |proposals| {
        assert LinkAt(proposals, j);
      }
    }
  }

  // ---------- Proposing ----------

  /** What the leader mines continues the proposals, and carries its execution. */
  lemma MinedContinues(g: Group, c: Cluster, r: Request)
    requires Safe(g, c) && Happens(g, c, ProposeEvent(r))
    ensures Fits(BlockAt(c.proposals, |c.proposals|), r.block)
    ensures Executes(g.Here(), BlockAt(c.proposals, |c.proposals|), r.block) && Sealed(r.block)
  {
    KnownNode(g, c, LEADER);
    TipIs(c.nodes[LEADER].chain, c.proposals);
  }

  lemma ProposedNodes(g: Group, c: Cluster, r: Request, t: Cluster)
    requires Safe(g, c) && Happens(g, c, ProposeEvent(r)) && t == After(g, c, ProposeEvent(r))
    ensures NodesOk(g, t)
  {
    MinedContinues(g, c, r);
    forall i: nat | i < |t.nodes| && i < |t.executed| && g.Honest(i) ensures NodeAt(g, t, i) {
      KnownNode(g, c, i);
      VotesGrow(g, c.sent, t.sent, c.nodes[i]);
      ChainGrows(c.proposals, r, c.nodes[i], c.executed[i]);
    }
  }

  lemma EarnedGrows(g: Group, proposals: seq<Request>, r: Request)
    requires Earned(g, proposals) && Executes(g.Here(), BlockAt(proposals, |proposals|), r.block) && Sealed(r.block)
    ensures Earned(g, proposals + [r])
  {
    forall j: nat | j < |proposals| + 1 ensures EarnedAt(g, proposals + [r], j) {
      if j < |proposals| {
        assert EarnedAt(g, proposals, j);
      }
    }
  }

  lemma ProposeSafe(g: Group, c: Cluster, r: Request)
    requires Safe(g, c) && Happens(g, c, ProposeEvent(r))
    ensures Safe(g, After(g, c, ProposeEvent(r)))
  {
    var t := After(g, c, ProposeEvent(r));
    KnownNode(g, c, LEADER);
    MinedContinues(g, c, r);
    LinkedGrows(c.proposals, r);
    EarnedGrows(g, c.proposals, r);
    ProposedNodes(g, c, r, t);
    forall m | m in t.sent ensures MessageOk(g, t, m) {
      if m in c.sent {
        KnownMessage(g, c, m);
      }
    }
  }

  // ---------- Receiving ----------

  /** What a replica's reaction has to satisfy for the cluster to stay safe. */
  ghost predicate ReactionOk(g: Group, c: Cluster, i: NodeId, r: Reaction)
    requires i < |c.nodes| && i < |c.executed|
  {
    var executed := if r.executes.Some? then c.executed[i] + [r.executes.value] else c.executed[i];
    NodeOk(g, c.sent, c.proposals, r.node, executed)
    && c.nodes[i].commitSent <= r.node.commitSent && |c.nodes[i].chain| <= |r.node.chain|
    && (r.sends.Some? ==>
          match r.sends.value
          case PrePrepare(_, _, _) => false
          case Prepare(v, d, _) => v == i && d in c.proposals && d.block.header.number <= |r.node.chain|
          case Commit(v, d, _) => v == i && d in r.node.commitSent)
    && (i == LEADER ==> LeaderOk(c.proposals, r.node, executed))
  }

  lemma ReceivedNodes(g: Group, c: Cluster, i: NodeId, m: Message)
    requires Safe(g, c) && Happens(g, c, ReceiveEvent(i, m))
    requires ReactionOk(g, c, i, React(g, c.nodes[i], i, m))
    ensures NodesOk(g, After(g, c, ReceiveEvent(i, m)))
  {
    var t := After(g, c, ReceiveEvent(i, m));
    forall j: nat | j < |t.nodes| && j < |t.executed| && g.Honest(j) ensures NodeAt(g, t, j) {
      KnownNode(g, c, j);
      VotesGrow(g, c.sent, t.sent, t.nodes[j]);
    }
  }

  lemma ReceivedMessages(g: Group, c: Cluster, i: NodeId, m: Message)
    requires Safe(g, c) && Happens(g, c, ReceiveEvent(i, m))
    requires ReactionOk(g, c, i, React(g, c.nodes[i], i, m))
    ensures MessagesOk(g, After(g, c, ReceiveEvent(i, m)))
  {
    var t := After(g, c, ReceiveEvent(i, m));
    forall x | x in t.sent ensures MessageOk(g, t, x) {
      if x in c.sent {
        KnownMessage(g, c, x);
      }
    }
  }

  lemma ReceivedSafe(g: Group, c: Cluster, i: NodeId, m: Message)
    requires Safe(g, c) && Happens(g, c, ReceiveEvent(i, m))
    requires ReactionOk(g, c, i, React(g, c.nodes[i], i, m))
    ensures Safe(g, After(g, c, ReceiveEvent(i, m)))
  {
    ReceivedNodes(g, c, i, m);
    ReceivedMessages(g, c, i, m);
  }

  lemma PoolGrows(g: Group, c: Cluster, n: Node, executed: seq<Digest>, req: Request)
    requires NodeOk(g, c.sent, c.proposals, n, executed) && req in c.proposals
    ensures NodeOk(g, c.sent, c.proposals, n.(pool := n.pool + {req}), executed)
  {
  }

  /** A proposal that is valid on the own chain has the chain's length as its number. */
  lemma ValidIsNext(proposals: seq<Request>, chain: seq<Block>, req: Request)
    requires Linked(proposals) && Follows(chain, proposals) && req in proposals && IsValidBlock(Tip(chain), req.block)
    ensures req.block.header.number == |chain|
  {
    TipIs(chain, proposals);
    ProposalNumber(proposals, req);
    NumberIs(proposals, req.block.header.number - 1);
  }

  lemma PrePrepareOk(g: Group, c: Cluster, i: NodeId, req: Request, digest: Digest, q: nat)
    requires Safe(g, c) && g.Honest(i) && PrePrepare(req, digest, q) in c.sent
    ensures ReactionOk(g, c, i, OnPrePrepare(c.nodes[i], i, req, digest, q))
  {
    var n := c.nodes[i];
    KnownNode(g, c, i);
    KnownMessage(g, c, PrePrepare(req, digest, q));
    PoolGrows(g, c, n, c.executed[i], req);
    if IsValidBlock(Tip(n.chain), req.block) {
      ValidIsNext(c.proposals, n.chain, req);
    }
  }

  lemma PrepareVote(g: Group, c: Cluster, votes: Votes, from: NodeId, d: Digest)
    requires PrepareVotesOk(g, c.sent, votes) && (from in g.byzantine || Prepared(c.sent, from, d))
    ensures PrepareVotesOk(g, c.sent, AddVote(votes, d, from))
  {
  }

  lemma CommitVote(g: Group, c: Cluster, votes: Votes, from: NodeId, d: Digest)
    requires CommitVotesOk(g, c.sent, votes) && (from in g.byzantine || Committed(c.sent, from, d))
    ensures CommitVotesOk(g, c.sent, AddVote(votes, d, from))
  {
  }

  lemma MoreVotes(votes: Votes, from: NodeId, d: Digest, e: Digest)
    ensures |VotesFor(votes, e)| <= |VotesFor(AddVote(votes, d, from), e)|
  {
    if d == e {
      var before, after := VotesFor(votes, e), VotesFor(AddVote(votes, d, from), e);
      assert after == before + {from};
      if from in before {
        assert after == before;
      }
    }
  }

  lemma PrepareOk(g: Group, c: Cluster, i: NodeId, from: NodeId, d: Digest, q: nat)
    requires Safe(g, c) && g.Honest(i) && (from in g.byzantine || Prepared(c.sent, from, d))
    ensures ReactionOk(g, c, i, OnPrepare(g, c.nodes[i], i, from, d, q))
  {
    var n := c.nodes[i];
    var t := PrepareCounted(g, c, i, from, d);
    KnownNode(g, c, i);
    if d in n.pool && |VotesFor(t.prepares, d)| >= 2 * g.F() + 1 {
      PrepareCommits(g, c, t, c.executed[i], d);
    }
  }

  /** Noting that the commit was broadcast. */
  lemma PrepareCommits(g: Group, c: Cluster, t: Node, executed: seq<Digest>, d: Digest)
    requires NodeOk(g, c.sent, c.proposals, t, executed) && d in t.pool && |VotesFor(t.prepares, d)| >= 2 * g.F() + 1
    ensures NodeOk(g, c.sent, c.proposals, t.(commitSent := t.commitSent + {d}), executed)
  {
  }

  /** Counting a prepare vote, before anything is broadcast. */
  lemma PrepareCounted(g: Group, c: Cluster, i: NodeId, from: NodeId, d: Digest) returns (t: Node)
    requires Safe(g, c) && g.Honest(i) && (from in g.byzantine || Prepared(c.sent, from, d))
    ensures t == c.nodes[i].(prepares := AddVote(c.nodes[i].prepares, d, from))
    ensures NodeOk(g, c.sent, c.proposals, t, c.executed[i])
  {
    var n := c.nodes[i];
    t := n.(prepares := AddVote(n.prepares, d, from));
    KnownNode(g, c, i);
    PrepareVote(g, c, n.prepares, from, d);
    forall e ensures |VotesFor(n.prepares, e)| <= |VotesFor(t.prepares, e)| {
      MoreVotes(n.prepares, from, d, e);
    }
  }

  /** Counting a commit vote, before anything is executed. */
  lemma CountedOk(g: Group, c: Cluster, i: NodeId, from: NodeId, d: Digest) returns (t: Node)
    requires Safe(g, c) && g.Honest(i) && (from in g.byzantine || Committed(c.sent, from, d))
    ensures t == c.nodes[i].(commits := AddVote(c.nodes[i].commits, d, from))
    ensures NodeOk(g, c.sent, c.proposals, t, c.executed[i])
  {
    var n := c.nodes[i];
    t := n.(commits := AddVote(n.commits, d, from));
    KnownNode(g, c, i);
    CommitVote(g, c, n.commits, from, d);
    forall e ensures |VotesFor(n.commits, e)| <= |VotesFor(t.commits, e)| {
      MoreVotes(n.commits, from, d, e);
    }
  }

  /** Executing `d` after a prefix of the proposals continues it exactly when `d` is the next one. */
  lemma InStepSnoc(proposals: seq<Request>, executed: seq<Digest>, d: Digest)
    requires Linked(proposals) && d in proposals
    ensures executed + [d] <= proposals <==> executed <= proposals && d.block.header.number == |executed| + 1
  {
    ProposalNumber(proposals, d);
    if executed + [d] <= proposals {
      assert proposals[|executed|] == d;
      NumberIs(proposals, |executed| + 1);
    }
  }

  /** A replica that runs goes on running with any proposal: what fits can be read afterwards. */
  lemma ExecuteRuns(g: Group, proposals: seq<Request>, n: Node, d: Digest)
    requires Linked(proposals) && Earned(g, proposals) && Follows(n.chain, proposals) && d in proposals && Runs(n)
    ensures Adding(Tip(n.chain), n.known, d.block) != Crashed
    ensures Tip(AddBlock(n.chain, d.block)).header.stateRoot in KnownAfterAdd(g.Here(), Tip(n.chain), n.known, d.block)
  {
    AddKeepsReadable(g.Here(), Tip(n.chain), n.known, d.block);
    AddFollows(n.chain, proposals, d);
    if Fits(Tip(n.chain), d.block) {
      TipIs(n.chain, proposals);
      ProposalNumber(proposals, d);
      assert EarnedAt(g, proposals, |n.chain| - 1);
    }
  }

  /** Executing a request that has its votes. */
  lemma ExecuteOk(g: Group, c: Cluster, t: Node, executed: seq<Digest>, d: Digest, u: Node)
    requires Linked(c.proposals) && NodeOk(g, c.sent, c.proposals, t, executed)
    requires |VotesFor(t.commits, d)| >= 2 * g.F() + 1 && d !in t.replied && d in t.pool && Runs(u)
    requires u == t.(replied := t.replied + {d}, locked := u.locked, known := u.known,
                     chain := AddBlock(t.chain, d.block), seqId := t.seqId + 1)
    ensures NodeOk(g, c.sent, c.proposals, u, executed + [d])
  {
    AddFollows(t.chain, c.proposals, d);
    ProposalNumber(c.proposals, d);
    InStepSnoc(c.proposals, executed, d);
    forall j: nat | j + 1 < |u.chain| ensures WasExecuted(c.proposals, executed + [d], j) {
      if j + 1 < |t.chain| {
        assert WasExecuted(c.proposals, executed, j);
      }
    }
  }

  lemma RefuseOk(g: Group, c: Cluster, t: Node, executed: seq<Digest>, d: Digest, u: Node)
    requires NodeOk(g, c.sent, c.proposals, t, executed)
    requires u == t.(replied := t.replied + {d}, locked := u.locked)
    ensures NodeOk(g, c.sent, c.proposals, u, executed)
  {
  }

  lemma EarlierIsExecuted(proposals: seq<Request>, m: nat, j: nat)
    requires j < |proposals| && m <= |proposals|
    ensures j < m ==> proposals[j] in proposals[..m]
  {
    if j < m {
      assert proposals[..m][j] == proposals[j];
    }
  }

  /** A request the leader has not replied to yet, but that has its votes, is the outstanding one. */
  lemma LeaderExecutes(g: Group, c: Cluster, votes: Votes, d: Digest)
    requires Safe(g, c) && CommitVotesOk(g, c.sent, votes) && |VotesFor(votes, d)| >= 2 * g.F() + 1
    requires d !in c.nodes[LEADER].replied
    ensures c.nodes[LEADER].locked && d in c.nodes[LEADER].pool
    ensures d == c.proposals[|c.proposals| - 1] && d.block.header.number == |c.nodes[LEADER].chain|
  {
    var n := c.nodes[LEADER];
    KnownNode(g, c, LEADER);
    CommittedIsProposed(g, c, votes, d);
    ProposalNumber(c.proposals, d);
    EarlierIsExecuted(c.proposals, n.seqId - 1, d.block.header.number - 1);
  }

  lemma CommitOk(g: Group, c: Cluster, i: NodeId, from: NodeId, d: Digest, q: nat)
    requires Safe(g, c) && g.Honest(i) && (from in g.byzantine || Committed(c.sent, from, d))
    ensures ReactionOk(g, c, i, OnCommit(g, c.nodes[i], i, from, d, q))
  {
    var n, r := c.nodes[i], OnCommit(g, c.nodes[i], i, from, d, q);
    KnownNode(g, c, i);
    var t := CountedOk(g, c, i, from, d);
    if q >= n.seqId && |VotesFor(t.commits, d)| >= 2 * g.F() + 1 && d !in n.replied {
      if i == LEADER {
        LeaderExecutes(g, c, t.commits, d);
        AddFollows(t.chain, c.proposals, d);
      }
      if d in n.pool {
        ExecuteRuns(g, c.proposals, n, d);
        ExecuteOk(g, c, t, c.executed[i], d, r.node);
      } else {
        RefuseOk(g, c, t, c.executed[i], d, r.node);
      }
    }
  }

  lemma ReceiveSafe(g: Group, c: Cluster, i: NodeId, m: Message)
    requires Safe(g, c) && Happens(g, c, ReceiveEvent(i, m))
    ensures Safe(g, After(g, c, ReceiveEvent(i, m)))
  {
    match m
    case PrePrepare(req, digest, q) =>
      PrePrepareOk(g, c, i, req, digest, q);
      ReceivedSafe(g, c, i, m);
    case Prepare(from, d, q) =>
      PrepareOk(g, c, i, from, d, q);
      ReceivedSafe(g, c, i, m);
    case Commit(from, d, q) =>
      CommitOk(g, c, i, from, d, q);
      ReceivedSafe(g, c, i, m);
  }

  // ---------- Along a run ----------

  lemma StartSafe(g: Group, c: Cluster)
    requires g.Valid() && Start(g, c)
    ensures Safe(g, c)
  {
    forall i: nat | i < |c.nodes| && i < |c.executed| && g.Honest(i) ensures NodeAt(g, c, i) {
      assert OnChain(FRESH_NODE.chain, c.proposals, 0);
    }
  }

  lemma LeadsSafe(g: Group, c: Cluster, d: Cluster)
    requires Safe(g, c) && Leads(g, c, d)
    ensures Safe(g, d)
  {
    var e :| Happens(g, c, e) && After(g, c, e) == d;
    match e
    case ProposeEvent(r) => ProposeSafe(g, c, r);
    case ReceiveEvent(i, m) => ReceiveSafe(g, c, i, m);
  }

  lemma {:induction false} HistorySafe(g: Group, run: seq<Cluster>, i: nat)
    requires g.Valid() && IsHistory(g, run) && i < |run|
    ensures Safe(g, run[i])
  {
    if i == 0 {
      StartSafe(g, run[0]);
    } else {
      HistorySafe(g, run, i - 1);
      assert NextLeads(g, run, i - 1);
      LeadsSafe(g, run[i - 1], run[i]);
    }
  }

  lemma OccursSafe(g: Group, c: Cluster)
    requires g.Valid() && Occurs(g, c)
    ensures Safe(g, c)
  {
    var run :| IsHistory(g, run) && run[|run| - 1] == c;
    HistorySafe(g, run, |run| - 1);
  }

  // ---------- The theorems ----------

  /** Agreement: an honest replica's chain is the genesis block followed by the leader's first
      proposals, so of two honest chains one is a prefix of the other. */
  lemma ChainsAgree(g: Group, c: Cluster, i: NodeId, k: NodeId)
    requires g.Valid() && Occurs(g, c) && g.Honest(i) && g.Honest(k)
    ensures i < |c.nodes| && k < |c.nodes| && 0 < |c.nodes[i].chain| <= |c.proposals| + 1
    ensures c.nodes[i].chain[0] == GENESIS
    ensures forall j :: 0 < j < |c.nodes[i].chain| ==> c.nodes[i].chain[j] == c.proposals[j - 1].block
    ensures c.nodes[i].chain <= c.nodes[k].chain || c.nodes[k].chain <= c.nodes[i].chain
  {
    OccursSafe(g, c);
    KnownNode(g, c, i);
    KnownNode(g, c, k);
    var x, y := c.nodes[i].chain, c.nodes[k].chain;
    assert OnChain(x, c.proposals, 0);
    forall j: nat | 0 < j < |x| ensures x[j] == c.proposals[j - 1].block {
      assert OnChain(x, c.proposals, j);
    }
    forall j: nat | j < |x| && j < |y| ensures x[j] == y[j] {
      assert OnChain(x, c.proposals, j) && OnChain(y, c.proposals, j);
    }
  }

  /** Replica `v` broadcast a commit for `d` after `2f + 1` prepares. */
  ghost predicate CommittedAfterPrepares(g: Group, c: Cluster, v: NodeId, d: Digest) {
    g.Honest(v) && v < |c.nodes| && Committed(c.sent, v, d) && |VotesFor(c.nodes[v].prepares, d)| >= 2 * g.F() + 1
  }

  /** Replica `v` prepared `d`, and `d`'s parent is on its chain. */
  ghost predicate ValidatedOnChain(g: Group, c: Cluster, v: NodeId, d: Digest) {
    g.Honest(v) && v < |c.nodes| && Prepared(c.sent, v, d)
    && 0 < d.block.header.number <= |c.nodes[v].chain|
    && Some(c.nodes[v].chain[d.block.header.number - 1].header) == d.block.header.parent
  }

  lemma ValidatorsOf(g: Group, c: Cluster, v: NodeId, d: Digest) returns (validators: set<NodeId>)
    requires Safe(g, c) && CommittedAfterPrepares(g, c, v, d)
    ensures |validators| >= g.F() + 1 && forall w :: w in validators ==> ValidatedOnChain(g, c, w, d)
  {
    KnownNode(g, c, v);
    var voters := VotesFor(c.nodes[v].prepares, d);
    HonestMajority(g, voters);
    validators := voters - g.byzantine;
    forall w | w in validators ensures ValidatedOnChain(g, c, w, d) {
      assert Prepared(c.sent, w, d);
      var q :| Prepare(w, d, q) in c.sent;
      KnownMessage(g, c, Prepare(w, d, q));
      KnownNode(g, c, w);
      ProposalNumber(c.proposals, d);
      assert OnChain(c.nodes[w].chain, c.proposals, d.block.header.number - 1);
    }
  }

  lemma CommittersOf(g: Group, c: Cluster, i: NodeId, d: Digest) returns (committers: set<NodeId>)
    requires Safe(g, c) && g.Honest(i) && d in c.executed[i]
    ensures |committers| >= g.F() + 1 && forall v :: v in committers ==> CommittedAfterPrepares(g, c, v, d)
  {
    KnownNode(g, c, i);
    var voters := VotesFor(c.nodes[i].commits, d);
    HonestMajority(g, voters);
    committers := voters - g.byzantine;
    forall v | v in committers ensures CommittedAfterPrepares(g, c, v, d) {
      assert Committed(c.sent, v, d);
      var q :| Commit(v, d, q) in c.sent;
      KnownMessage(g, c, Commit(v, d, q));
      KnownNode(g, c, v);
    }
  }

  /** The commit certificate: whenever an honest replica executed a request, `f + 1` honest replicas
      broadcast a commit for it, each after `2f + 1` prepares, and `f + 1` honest replicas had
      validated its block against their own chain. */
  lemma CommitCertificate(g: Group, c: Cluster, i: NodeId, d: Digest)
    returns (committers: set<NodeId>, validators: set<NodeId>)
    requires g.Valid() && Occurs(g, c) && g.Honest(i) && i < |c.executed| && d in c.executed[i]
    ensures |committers| >= g.F() + 1 && forall v :: v in committers ==> CommittedAfterPrepares(g, c, v, d)
    ensures |validators| >= g.F() + 1 && forall w :: w in validators ==> ValidatedOnChain(g, c, w, d)
  {
    OccursSafe(g, c);
    committers := CommittersOf(g, c, i, d);
    assert committers != {};
    var v :| v in committers;
    validators := ValidatorsOf(g, c, v, d);
  }

  /** An honest replica's block `h + 1` was executed, and its parent is its block `h`. */
  lemma BlockWasExecuted(g: Group, c: Cluster, i: NodeId, h: nat) returns (d: Digest)
    requires Safe(g, c) && g.Honest(i) && i < |c.nodes| && h + 1 < |c.nodes[i].chain|
    ensures d in c.executed[i] && d.block.header.number == h + 1
  {
    KnownNode(g, c, i);
    assert WasExecuted(c.proposals, c.executed[i], h);
    d := c.proposals[h];
    NumberIs(c.proposals, h + 1);
  }

  /** An honest replica has block `h + 1` only when `f + 1` honest replicas have block `h`. */
  lemma PredecessorHeld(g: Group, c: Cluster, i: NodeId, h: nat) returns (holders: set<NodeId>)
    requires g.Valid() && Occurs(g, c) && g.Honest(i) && i < |c.nodes| && h + 1 < |c.nodes[i].chain|
    ensures |holders| >= g.F() + 1
    ensures forall w :: w in holders ==>
      g.Honest(w) && w < |c.nodes| && h < |c.nodes[w].chain| && c.nodes[w].chain[h] == c.nodes[i].chain[h]
  {
    OccursSafe(g, c);
    var d := BlockWasExecuted(g, c, i, h);
    var committers, validators := CommitCertificate(g, c, i, d);
    holders := validators;
    forall w | w in holders
      ensures g.Honest(w) && w < |c.nodes| && h < |c.nodes[w].chain| && c.nodes[w].chain[h] == c.nodes[i].chain[h]
    {
      assert ValidatedOnChain(g, c, w, d);
      ChainsAgree(g, c, w, i);
    }
  }

  /** The leader's discipline: its sequence number is its height plus one, the lock is held exactly
      while one proposal is outstanding, and sequence number `j + 1` got one proposal. */
  lemma LeaderDiscipline(g: Group, c: Cluster)
    requires g.Valid() && Occurs(g, c)
    ensures |c.nodes| == g.n && c.nodes[LEADER].seqId == |c.nodes[LEADER].chain|
    ensures c.nodes[LEADER].locked <==> |c.proposals| == c.nodes[LEADER].seqId
    ensures !c.nodes[LEADER].locked <==> |c.proposals| == c.nodes[LEADER].seqId - 1
    ensures 0 < |c.nodes[LEADER].chain| <= |c.proposals| + 1 && |c.executed| == g.n
    ensures forall m :: m in c.sent && m.PrePrepare? ==>
      0 < m.seqNo <= |c.proposals| && m.req == m.digest == c.proposals[m.seqNo - 1]
    ensures c.executed[LEADER] == c.proposals[..|c.nodes[LEADER].chain| - 1]
  {
    OccursSafe(g, c);
    forall m | m in c.sent && m.PrePrepare?
      ensures 0 < m.seqNo <= |c.proposals| && m.req == m.digest == c.proposals[m.seqNo - 1]
    {
      KnownMessage(g, c, m);
    }
  }

  /** The leader never releases a lock it does not hold: when a commit message makes it reply to a
      request, and so unlock, the lock is held and the request is the outstanding proposal. */
  lemma UnlockIsHeld(g: Group, c: Cluster, from: NodeId, d: Digest, q: nat)
    requires g.Valid() && Occurs(g, c) && Happens(g, c, ReceiveEvent(LEADER, Commit(from, d, q)))
    requires d !in c.nodes[LEADER].replied && d in OnCommit(g, c.nodes[LEADER], LEADER, from, d, q).node.replied
    ensures c.nodes[LEADER].locked && c.proposals != [] && d == c.proposals[|c.proposals| - 1]
    ensures OnCommit(g, c.nodes[LEADER], LEADER, from, d, q).executes == Some(d)
    ensures OnCommit(g, c.nodes[LEADER], LEADER, from, d, q).node.chain == c.nodes[LEADER].chain + [d.block]
  {
    OccursSafe(g, c);
    KnownNode(g, c, LEADER);
    var t := CountedOk(g, c, LEADER, from, d);
    LeaderExecutes(g, c, t.commits, d);
    AddFollows(t.chain, c.proposals, d);
  }

  /** No replica executes a request twice, and its sequence number counts what it executed. */
  lemma ExecutedOnce(g: Group, c: Cluster, i: NodeId)
    requires g.Valid() && Occurs(g, c) && g.Honest(i)
    ensures i < |c.executed| && i < |c.nodes| && c.nodes[i].seqId == |c.executed[i]| + 1
    ensures forall j, k :: 0 <= j < k < |c.executed[i]| ==> c.executed[i][j] != c.executed[i][k]
    ensures forall j :: 0 <= j < |c.nodes[i].chain| - 1 ==> j < |c.proposals| && c.proposals[j] in c.executed[i]
  {
    OccursSafe(g, c);
    KnownNode(g, c, i);
    forall j | 0 <= j < |c.nodes[i].chain| - 1 ensures j < |c.proposals| && c.proposals[j] in c.executed[i] {
      assert WasExecuted(c.proposals, c.executed[i], j);
    }
  }

  /** A replica's sequence number is its height plus one if and only if it executed the leader's
      proposals in order; one that processed a commit too early stays behind its sequence number. */
  lemma InStepExactly(g: Group, c: Cluster, i: NodeId)
    requires g.Valid() && Occurs(g, c) && g.Honest(i)
    ensures i < |c.executed| && i < |c.nodes| && |c.nodes[i].chain| <= c.nodes[i].seqId
    ensures c.nodes[i].seqId == |c.nodes[i].chain| <==> c.executed[i] <= c.proposals
  {
    OccursSafe(g, c);
    KnownNode(g, c, i);
  }

  // ---------- Replicated state ----------

  /** The root of the last of the first `h` blocks is what executing their bodies leads to. */
  ghost predicate RootIsReplay(g: Group, chain: seq<Block>, h: nat)
    requires 0 < h <= |chain|
  {
    Replicas.Replayed(chain[h - 1].header.stateRoot, map[])
      == Replicas.Replay(g.cfg, g.shard, Replicas.ExecutedLog(chain[..h]))
  }

  lemma {:induction false} EarnedIsReplay(g: Group, proposals: seq<Request>, chain: seq<Block>, h: nat)
    requires Earned(g, proposals) && Follows(chain, proposals) && 0 < h <= |chain|
    ensures RootIsReplay(g, chain, h)
  {
    assert OnChain(chain, proposals, h - 1);
    if h > 1 {
      EarnedIsReplay(g, proposals, chain, h - 1);
      assert OnChain(chain, proposals, h - 2) && EarnedAt(g, proposals, h - 2);
      RootNext(g, chain, h - 1);
    }
  }

  lemma RootNext(g: Group, chain: seq<Block>, h: nat)
    requires 0 < h < |chain| && RootIsReplay(g, chain, h) && Executes(g.Here(), chain[h - 1], chain[h])
    ensures RootIsReplay(g, chain, h + 1)
  {
    assert chain[..h + 1][..h] == chain[..h];
    Replicas.ReplaySnoc(g.cfg, g.shard, Replicas.ExecutedLog(chain[..h]), Replicas.Executed(chain[h].body));
  }

  /** Replicated state: an honest replica never crashes, can read the state of its tip, and this state and
      that of every block below are what executing the block bodies leads to, whether the replica
      executed them, mined them or found their roots known. */
  lemma ReplicatedState(g: Group, c: Cluster, i: NodeId)
    requires g.Valid() && Occurs(g, c) && g.Honest(i)
    ensures i < |c.nodes| && !c.nodes[i].crashed && c.nodes[i].chain != []
    ensures Tip(c.nodes[i].chain).header.stateRoot in c.nodes[i].known
    ensures Replicas.Replayed(Tip(c.nodes[i].chain).header.stateRoot, map[])
         == Replicas.Replay(g.cfg, g.shard, Replicas.ExecutedLog(c.nodes[i].chain))
    ensures forall h: nat :: 0 < h <= |c.nodes[i].chain| ==> RootIsReplay(g, c.nodes[i].chain, h)
  {
    OccursSafe(g, c);
    KnownNode(g, c, i);
    var chain := c.nodes[i].chain;
    forall h: nat | 0 < h <= |chain| ensures RootIsReplay(g, chain, h) {
      EarnedIsReplay(g, c.proposals, chain, h);
    }
    assert RootIsReplay(g, chain, |chain|) && chain[..|chain|] == chain;
  }

  /** Every block of an honest chain is sealed, so that the search for a transaction is complete on it. */
  lemma HonestChainsSealed(g: Group, c: Cluster, i: NodeId)
    requires g.Valid() && Occurs(g, c) && g.Honest(i)
    ensures i < |c.nodes| && forall b :: b in c.nodes[i].chain ==> Sealed(b)
  {
    OccursSafe(g, c);
    KnownNode(g, c, i);
    var chain := c.nodes[i].chain;
    forall j: nat | j < |chain| ensures Sealed(chain[j]) {
      assert OnChain(chain, c.proposals, j);
      if j > 0 {
        assert EarnedAt(g, c.proposals, j - 1);
      }
    }
  }

  /** Honest replicas have the same state at every height both have reached, and on tips of equal height
      they can both read it. */
  lemma StatesAgree(g: Group, c: Cluster, i: NodeId, k: NodeId)
    requires g.Valid() && Occurs(g, c) && g.Honest(i) && g.Honest(k)
    ensures i < |c.nodes| && k < |c.nodes|
    ensures forall h :: 0 <= h < |c.nodes[i].chain| && h < |c.nodes[k].chain| ==>
      c.nodes[i].chain[h].header.stateRoot == c.nodes[k].chain[h].header.stateRoot
    ensures |c.nodes[i].chain| == |c.nodes[k].chain| ==>
      Tip(c.nodes[i].chain).header.stateRoot in c.nodes[i].known * c.nodes[k].known
  {
    ChainsAgree(g, c, i, k);
    ReplicatedState(g, c, i);
    ReplicatedState(g, c, k);
  }
}
