/**
 A cluster that occurs in which an honest replica is out of step: it executed request number 2 before number 1,
 so its chain is behind its sequence number.
 */
module Stragglers {
  import opened Blocks
  import opened Pbft
  import opened PbftSafety

  lemma HistoryGrows(g: Group, run: seq<Cluster>, d: Cluster)
    requires IsHistory(g, run) && Leads(g, run[|run| - 1], d)
    ensures IsHistory(g, run + [d])
  {
    var longer := run + [d];
    forall i: nat | i + 1 < |longer| ensures NextLeads(g, longer, i) {
      if i + 1 < |run| {
        assert NextLeads(g, run, i);
      }
    }
  }

  lemma Occur(g: Group, c: Cluster, e: Event) returns (d: Cluster)
    requires Occurs(g, c) && Happens(g, c, e)
    ensures Occurs(g, d) && d == After(g, c, e)
  {
    d := After(g, c, e);
    var run :| IsHistory(g, run) && run[|run| - 1] == c;
    HistoryGrows(g, run, d);
    assert (run + [d])[|run + [d]| - 1] == d;
  }

  /** A cluster of two or three, in which one vote is a quorum. */
  predicate Small(g: Group) {
    g.n >= 2 && g.F() == 0 && g.byzantine == {}
  }

  /** The leader is `leader`, and replica 1 has done nothing. */
  ghost predicate Leading(g: Group, c: Cluster, leader: Node) {
    |c.nodes| == g.n == |c.executed| && g.n >= 2 && c.nodes[0] == leader && !leader.crashed
    && c.nodes[1] == FRESH_NODE && c.executed[1] == []
  }

  lemma Begin(g: Group) returns (c: Cluster)
    requires Small(g)
    ensures Occurs(g, c) && Leading(g, c, FRESH_NODE)
  {
    c := Cluster(seq(g.n, (i: nat) => FRESH_NODE), {}, [], seq(g.n, (i: nat) => []));
    assert IsHistory(g, [c]) && [c][|[c]| - 1] == c;
  }

  /** The leader has proposed the request and received its own proposal. */
  lemma Proposed(g: Group, c: Cluster, n: Node, r: Request) returns (d: Cluster, m: Node)
    requires Small(g) && Occurs(g, c) && Leading(g, c, n) && MayPropose(g, n, r)
    ensures Occurs(g, d) && Leading(g, d, m) && m == Propose(g, n, r)
    ensures PrePrepare(r, r, n.seqId) in d.sent && Prepare(0, r, n.seqId) in d.sent
  {
    m := Propose(g, n, r);
    d := Occur(g, c, ProposeEvent(r));
    MinedIsSealed(Tip(n.chain), r.block.body, r.block.header.stateRoot, LEADER);
    assert m.pool + {r} == m.pool;
    d := Occur(g, d, ReceiveEvent(0, PrePrepare(r, r, n.seqId)));
  }

  /** The leader commits to the request. */
  lemma Prepares(g: Group, c: Cluster, n: Node, r: Request) returns (d: Cluster, m: Node)
    requires Small(g) && Occurs(g, c) && Leading(g, c, n) && Prepare(0, r, n.seqId) in c.sent
    requires r in n.pool && r !in n.commitSent && r !in n.prepares
    ensures Occurs(g, d) && Leading(g, d, m) && Commit(0, r, n.seqId) in d.sent && c.sent <= d.sent
    ensures m == n.(prepares := n.prepares[r := {0}], commitSent := n.commitSent + {r})
  {
    m := n.(prepares := n.prepares[r := {0}], commitSent := n.commitSent + {r});
    assert AddVote(n.prepares, r, 0) == m.prepares by {
      assert VotesFor(n.prepares, r) + {0} == {0};
    }
    d := Occur(g, c, ReceiveEvent(0, Prepare(0, r, n.seqId)));
  }

  /** The leader executes the request. */
  lemma Commits(g: Group, c: Cluster, n: Node, r: Request) returns (d: Cluster, m: Node)
    requires Small(g) && Occurs(g, c) && Leading(g, c, n) && Commit(0, r, n.seqId) in c.sent
    requires r in n.pool && r !in n.replied && r !in n.commits
    requires Fits(Tip(n.chain), r.block) && r.block.header.stateRoot in n.known
    ensures Occurs(g, d) && Leading(g, d, m) && c.sent <= d.sent
    ensures m.chain == n.chain + [r.block] && m.seqId == n.seqId + 1 && !m.locked
    ensures m.prepares == n.prepares && m.commitSent == n.commitSent && m.known == n.known
  {
    var t := n.(commits := AddVote(n.commits, r, 0));
    assert VotesFor(t.commits, r) == {0};
    m := Reply(g, t, 0, r).node;
    d := Occur(g, c, ReceiveEvent(0, Commit(0, r, n.seqId)));
  }

  /** The first request the leader proposes, an empty block. */
  function First(g: Group): Request {
    Request(MinedOn(g, [GENESIS], []), 1)
  }

  function Second(g: Group): Request {
    Request(MinedOn(g, [GENESIS, First(g).block], []), 2)
  }

  /** The leader has executed number 1. */
  lemma FirstDone(g: Group) returns (c: Cluster, n: Node)
    requires Small(g)
    ensures Occurs(g, c) && Leading(g, c, n) && n.chain == [GENESIS, First(g).block] && n.seqId == 2 && !n.locked
    ensures Second(g) !in n.commitSent && Second(g) !in n.prepares && map[] in n.known
  {
    var r := First(g);
    MinedIsSealed(GENESIS, [], map[], LEADER);
    c := Begin(g);
    c, n := Proposed(g, c, FRESH_NODE, r);
    c, n := Prepares(g, c, n, r);
    c, n := Commits(g, c, n, r);
    assert [GENESIS] + [r.block] == [GENESIS, r.block];
    assert r.time != Second(g).time;
  }

  /** The leader has committed to number 2, and replica 1 has heard of nothing. */
  lemma SecondCommitted(g: Group) returns (c: Cluster, n: Node)
    requires Small(g)
    ensures Occurs(g, c) && Leading(g, c, n)
    ensures PrePrepare(Second(g), Second(g), 2) in c.sent && Commit(0, Second(g), 2) in c.sent
  {
    c, n := FirstDone(g);
    c, n := Proposed(g, c, n, Second(g));
    c, n := Prepares(g, c, n, Second(g));
  }

  /** Replica 1 gets the second request and the leader's commit for it, and executes it first: the block is
      refused, and the replica is out of step. */
  lemma OutOfStep(g: Group) returns (c: Cluster)
    requires Small(g)
    ensures Occurs(g, c) && g.Honest(1) && |c.nodes| == g.n == |c.executed| && g.n >= 2
    ensures c.executed[1] == [Second(g)] && c.nodes[1].chain == [GENESIS] && c.nodes[1].seqId == 2
    ensures !(c.executed[1] <= c.proposals)
  {
    var n, r := FRESH_NODE, Second(g);
    c, n := SecondCommitted(g);
    c := Occur(g, c, ReceiveEvent(1, PrePrepare(r, r, 2)));
    assert VotesFor(AddVote(map[], r, 0), r) == {0};
    assert !Fits(GENESIS, r.block);
    c := Occur(g, c, ReceiveEvent(1, Commit(0, r, 2)));
    assert [] + [r] == [r];
    InStepExactly(g, c, 1);
  }
}
