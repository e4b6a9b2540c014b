/** A replica as the program has it: message handlers that update its maps, flags, counters and chain. */
module Replica {
  import opened Basics
  import opened Ledger
  import opened Blocks
  import opened Replicas
  import opened Chain
  import opened Pbft
  import opened PbftSafety

  class Replica {
    const group: Group
    const id: NodeId
    const maliciousNums: nat
    const chain: BlockChain
    var sequenceID: nat
    var requestPool: set<Digest>
    var cntPrepareConfirm: Votes
    var cntCommitConfirm: Votes
    var isCommitBroadcast: set<Digest>
    var isReply: set<Digest>
    var sequenceLocked: bool
    /** The process has panicked. */
    var crashed: bool

    ghost predicate Valid()
      reads chain`blocks, chain`storage, chain`currentBlock, chain`log, chain`partitionMap
    {
      maliciousNums == group.F() && chain.Valid() && chain.cfg == group.cfg && chain.shardId == group.shard
      && chain.partitionMap == map[] && chain.log == ExecutedLog(chain.blocks)
    }

    ghost function Value(): Node
      reads this, chain`blocks, chain`known
    {
      Node(sequenceID, requestPool, cntPrepareConfirm, cntCommitConfirm, isCommitBroadcast, isReply,
           chain.blocks, chain.known, sequenceLocked, crashed)
    }

    constructor (g: Group, i: NodeId)
      requires g.n > 0
      ensures Valid() && Value() == FRESH_NODE && group == g && id == i && fresh(chain)
      ensures 3 * maliciousNums + 1 <= g.n < 3 * maliciousNums + 4
    {
      group, id, maliciousNums := g, i, (g.n - 1) / 3;
      chain := new BlockChain(g.cfg, g.shard);
      sequenceID, requestPool, cntPrepareConfirm, cntCommitConfirm := 1, {}, map[], map[];
      isCommitBroadcast, isReply, sequenceLocked, crashed := {}, {}, false, false;
    }

    method Set2DMap(isPrepareConfirm: bool, key: Digest, val: NodeId) returns (cnt: nat)
      modifies this`cntPrepareConfirm, this`cntCommitConfirm
      ensures cntPrepareConfirm
        == if isPrepareConfirm then AddVote(old(cntPrepareConfirm), key, val) else old(cntPrepareConfirm)
      ensures cntCommitConfirm
        == if isPrepareConfirm then old(cntCommitConfirm) else AddVote(old(cntCommitConfirm), key, val)
      ensures cnt == |VotesFor(if isPrepareConfirm then cntPrepareConfirm else cntCommitConfirm, key)|
    {
      if isPrepareConfirm {
        if key !in cntPrepareConfirm {
          cntPrepareConfirm := cntPrepareConfirm[key := {}];
        }
        cntPrepareConfirm := cntPrepareConfirm[key := cntPrepareConfirm[key] + {val}];
        cnt := |cntPrepareConfirm[key]|;
      } else {
        if key !in cntCommitConfirm {
          cntCommitConfirm := cntCommitConfirm[key := {}];
        }
        cntCommitConfirm := cntCommitConfirm[key := cntCommitConfirm[key] + {val}];
        cnt := |cntCommitConfirm[key]|;
      }
    }

    /** Takes the sequence lock, mines a block of the given transactions and broadcasts the request. It
        panics, holding the lock, if the state to execute on cannot be read. */
    method ProposeRequest(txs: seq<Tx>, time: nat) returns (msg: Option<Message>)
      requires Valid() && !sequenceLocked && !crashed
      modifies this`requestPool, this`sequenceLocked, this`crashed, chain`known
      ensures Valid() && crashed == !CanExecute(Tip(old(chain.blocks)), old(chain.known), txs)
      ensures var r := Request(MinedOn(group, old(chain.blocks), txs), time);
        !crashed ==>
          MayPropose(group, old(Value()), r) && Value() == Propose(group, old(Value()), r)
          && msg == Some(PrePrepare(r, r, sequenceID))
      ensures crashed ==> Value() == old(Value()).(locked := true, crashed := true) && msg == None
    {
      sequenceLocked := true;
      var mined := chain.GenerateBlock(txs, LEADER);
      if mined.None? {
        crashed := true;
        return None;
      }
      var r := Request(mined.value, time);
      requestPool := requestPool + {r};
      msg := Some(PrePrepare(r, r, sequenceID));
    }

    method HandlePrePrepare(req: Request, digest: Digest, seqNo: nat) returns (reply: Option<Message>)
      requires Valid()
      modifies this`requestPool
      ensures Valid() && Value() == OnPrePrepare(old(Value()), id, req, digest, seqNo).node
      ensures reply == OnPrePrepare(old(Value()), id, req, digest, seqNo).sends
      ensures requestPool == if seqNo < sequenceID || req != digest then old(requestPool) else old(requestPool) + {req}
      ensures reply.Some? <==>
        seqNo == sequenceID && req == digest && Blocks.IsValidBlock(chain.currentBlock, req.block)
      ensures reply.Some? ==> reply.value == Prepare(id, digest, seqNo)
    {
      reply := None;
      if seqNo < sequenceID {
        return;
      }
      var flag := false;
      if req != digest {
        return;
      } else if sequenceID < seqNo {
        requestPool := requestPool + {req};
      } else {
        flag := chain.IsValidBlock(req.block);
        requestPool := requestPool + {req};
      }
      if flag {
        reply := Some(Prepare(id, digest, seqNo));
      }
    }

    method HandlePrepare(from: NodeId, digest: Digest, seqNo: nat) returns (reply: Option<Message>)
      requires Valid()
      modifies this`cntPrepareConfirm, this`cntCommitConfirm, this`isCommitBroadcast
      ensures Valid() && Value() == OnPrepare(group, old(Value()), id, from, digest, seqNo).node
      ensures reply == OnPrepare(group, old(Value()), id, from, digest, seqNo).sends
      ensures seqNo == sequenceID && digest in requestPool ==>
        digest in cntPrepareConfirm && from in cntPrepareConfirm[digest]
        && (reply.Some? <==> |cntPrepareConfirm[digest]| >= 2 * maliciousNums + 1 && digest !in old(isCommitBroadcast))
      ensures seqNo != sequenceID || digest !in requestPool ==>
        reply == None && cntPrepareConfirm == old(cntPrepareConfirm)
      ensures reply.Some? ==> reply.value == Message.Commit(id, digest, seqNo)
      ensures isCommitBroadcast == if reply.Some? then old(isCommitBroadcast) + {digest} else old(isCommitBroadcast)
    {
      reply := None;
      if seqNo < sequenceID {
        return;
      }
      if digest !in requestPool {
        return;
      } else if sequenceID < seqNo {
        return;
      } else {
        var cnt := Set2DMap(true, digest, from);
        if cnt >= 2 * maliciousNums + 1 && digest !in isCommitBroadcast {
          reply := Some(Message.Commit(id, digest, seqNo));
          isCommitBroadcast := isCommitBroadcast + {digest};
        }
      }
    }

    method HandleCommit(from: NodeId, digest: Digest, seqNo: nat) returns (executed: Option<Digest>)
      requires Valid()
      modifies this, chain
      ensures Valid() && Value() == OnCommit(group, old(Value()), id, from, digest, seqNo).node
      ensures executed == OnCommit(group, old(Value()), id, from, digest, seqNo).executes
      ensures seqNo < old(sequenceID) ==> executed == None && Value() == old(Value())
      ensures seqNo >= old(sequenceID) ==> digest in cntCommitConfirm && from in cntCommitConfirm[digest]
      ensures executed.Some? ==>
        executed.value == digest && digest in old(requestPool) && digest !in old(isReply)
        && |cntCommitConfirm[digest]| >= 2 * maliciousNums + 1
      ensures seqNo >= old(sequenceID) && |cntCommitConfirm[digest]| >= 2 * maliciousNums + 1 && !crashed ==>
        digest in isReply
        && (digest in old(requestPool) && digest !in old(isReply) ==> executed == Some(digest))
        && (id == 0 && digest !in old(isReply) ==> !sequenceLocked)
      ensures sequenceID == old(sequenceID) + if executed.Some? then 1 else 0
    {
      executed := None;
      if seqNo < sequenceID {
        return;
      }
      var cnt := Set2DMap(false, digest, from);
      if cnt >= 2 * maliciousNums + 1 && digest !in isReply {
        executed := ReplyTo(digest);
      }
    }

    /** `executed` is the request handed to the chain. Releasing the lock unheld would panic; in a
        cluster the leader always holds it here (`PbftSafety.UnlockIsHeld`). */
    method ReplyTo(digest: Digest) returns (executed: Option<Digest>)
      requires Valid()
      modifies this`crashed, this`isReply, this`sequenceID, this`sequenceLocked, chain
      ensures Valid() && Value() == Reply(group, old(Value()), id, digest).node
      ensures executed == Reply(group, old(Value()), id, digest).executes
    {
      executed := None;
      if digest !in requestPool {
        isReply := isReply + {digest};
      } else {
        var added := HandleinCommit(digest.block);
        if added == Crashed {
          crashed := true;
          return;
        }
        isReply := isReply + {digest};
        sequenceID := sequenceID + 1;
        executed := Some(digest);
      }
      if id == LEADER {
        sequenceLocked := false;
      }
    }

    /** The chain's part of a commit. */
    method HandleinCommit(b: Block) returns (r: AddResult)
      requires Valid()
      modifies chain
      ensures Valid() && r == Adding(Tip(old(chain.blocks)), old(chain.known), b)
      ensures chain.blocks == Pbft.AddBlock(old(chain.blocks), b) || r == Crashed
      ensures r == Crashed ==> chain.blocks == old(chain.blocks)
      ensures chain.known == KnownAfterAdd(group.Here(), Tip(old(chain.blocks)), old(chain.known), b)
    {
      r := chain.AddBlock(b);
      assert r == Added ==> chain.blocks[..|chain.blocks| - 1] == old(chain.blocks);
    }
  }

  /** In every cluster that can occur, the chain object of an honest replica says what its state is and can
      read it, so that it mines and appends without a crash; and its blocks are sealed, so that the search
      (`Chain.BlockChain.FindTx`) finds exactly the transactions its blocks hold. */
  lemma ReplicaIsFaithful(g: Group, c: Cluster, i: NodeId, r: Replica)
    requires g.Valid() && Occurs(g, c) && g.Honest(i) && i < |c.nodes|
    requires r.Valid() && r.group == g && r.Value() == c.nodes[i]
    ensures r.chain.Faithful() && r.chain.AllSealed() && !r.crashed
  {
    ReplicatedState(g, c, i);
    HonestChainsSealed(g, c, i);
    assert Tip(r.chain.blocks) == r.chain.currentBlock;
    forall h: nat | h < |r.chain.blocks| ensures r.chain.SealedAt(h) {
      assert r.chain.blocks[h] in c.nodes[i].chain;
    }
  }
}
