/**
 A node's blockchain: state tries by root, blocks by hash, and the operations that execute, mine,
 append and search blocks. A state root stands for the accounts it commits to.
 */
module Chain {
  import opened Basics
  import opened Ledger
  import opened Shards
  import opened Blocks
  import opened BlockLaws
  import opened Replicas

  lemma ListedSnoc(site: Site, acc: Accounts, ac: seq<Addr>, states: seq<AccountState>, n: nat)
    requires |ac| == |states| && n < |ac|
    ensures AddAccounts(site, acc, Listed(ac[..n + 1], states[..n + 1]))
         == if Local(site, ac[n]) then AddAccounts(site, acc, Listed(ac[..n], states[..n]))[ac[n] := states[n]]
            else AddAccounts(site, acc, Listed(ac[..n], states[..n]))
  {
    assert ac[..n + 1][..n] == ac[..n] && states[..n + 1][..n] == states[..n];
  }

  /** Of the listed accounts those homed here get their listed state, the last one if listed more than once;
      nothing else changes. */
  ghost predicate OnlyHomedAdded(site: Site, before: Accounts, after: Accounts, ac: seq<Addr>,
                                 states: seq<AccountState>)
    requires |ac| == |states|
  {
    (forall a :: a !in ac || HomeOf(site.cfg, site.pmap, a) != site.shard ==>
        (a in after <==> a in before) && (a in after ==> after[a] == before[a]))
    && forall i :: 0 <= i < |ac| && ac[i] !in ac[i + 1..] && HomeOf(site.cfg, site.pmap, ac[i]) == site.shard ==>
         ac[i] in after && after[ac[i]] == states[i]
  }

  lemma {:induction false} ListedKeys(ac: seq<Addr>, states: seq<AccountState>, a: Addr)
    requires |ac| == |states|
    ensures a in Listed(ac, states) <==> a in ac
  {
    if ac != [] {
      var n := |ac| - 1;
      assert ac == ac[..n] + [ac[n]];
      ListedKeys(ac[..n], states[..n], a);
    }
  }

  /** The last entry of an account is the one that counts. */
  lemma {:induction false} ListedLast(ac: seq<Addr>, states: seq<AccountState>, i: nat)
    requires |ac| == |states| && i < |ac| && forall j :: i < j < |ac| ==> ac[j] != ac[i]
    ensures ac[i] in Listed(ac, states) && Listed(ac, states)[ac[i]] == states[i]
  {
    var n := |ac| - 1;
    if i < n {
      ListedLast(ac[..n], states[..n], i);
    }
  }

  lemma ListedAdds(site: Site, acc: Accounts, ac: seq<Addr>, states: seq<AccountState>)
    requires |ac| == |states|
    ensures OnlyHomedAdded(site, acc, AddAccounts(site, acc, Listed(ac, states)), ac, states)
  {
    forall a ensures a in Listed(ac, states) <==> a in ac {
      ListedKeys(ac, states, a);
    }
    forall i | 0 <= i < |ac| && ac[i] !in ac[i + 1..]
      ensures ac[i] in Listed(ac, states) && Listed(ac, states)[ac[i]] == states[i]
    {
      forall j | i < j < |ac| ensures ac[j] != ac[i] {
        assert ac[i + 1..][j - i - 1] == ac[j];
      }
      ListedLast(ac, states, i);
    }
  }

  lemma ExecuteSnoc(site: Site, acc: Accounts, body: seq<Tx>, n: nat)
    requires n < |body|
    ensures Execute(site, acc, body[..n + 1]) == ExecTx(site, Execute(site, acc, body[..n]), body[n], n)
  {
    assert body[..n + 1][..n] == body[..n];
  }

  /** The search on one block finds the transaction. */
  predicate FindsOn(b: Block, txHash: nat) {
    txHash % BLOOM_BITS in b.header.bloom && txHash in TxRoot(b.body) && TxRoot(b.body) == b.header.txRoot
  }

  /** The bloom test never rejects a transaction of a sealed block. */
  lemma SealedFinds(b: Block, txHash: nat)
    requires Sealed(b)
    ensures FindsOn(b, txHash) <==> exists tx :: tx in b.body && tx.hash == txHash
  {
    if txHash in TxRoot(b.body) {
      var tx :| tx in b.body && tx.hash == txHash;
      assert tx.hash % BLOOM_BITS in Bloom(b.body);
    }
  }

  class BlockChain {
    const cfg: Config
    const shardId: ShardId
    var currentBlock: Block
    var storage: map<Header, Block>
    /** The states that have a trie in the database. */
    var known: set<Accounts>
    var partitionMap: PartitionMap
    /** The chain from the genesis block to the current one, and what each later block did. */
    ghost var blocks: seq<Block>
    ghost var log: seq<Entry>

    ghost predicate LinkedAt(i: nat)
      reads this`blocks
      requires i + 1 < |blocks|
    {
      Fits(blocks[i], blocks[i + 1])
    }

    ghost predicate StoredAt(i: nat)
      reads this`blocks, this`storage
      requires i < |blocks|
    {
      blocks[i].header.number == i && blocks[i].header in storage && storage[blocks[i].header] == blocks[i]
    }

    ghost predicate Valid()
      reads this`blocks, this`storage, this`currentBlock, this`log
    {
      && |blocks| == |log| + 1 && blocks[0] == GENESIS && currentBlock == blocks[|log|]
      && (forall i: nat :: i + 1 < |blocks| ==> LinkedAt(i))
      && (forall i: nat :: i < |blocks| ==> StoredAt(i))
    }

    ghost predicate SealedAt(i: nat)
      reads this`blocks
      requires i < |blocks|
    {
      Sealed(blocks[i])
    }

    ghost predicate AllSealed()
      reads this`blocks
    {
      forall i: nat :: i < |blocks| ==> SealedAt(i)
    }

    /** The chain as a value. */
    ghost function Snapshot(): Copy
      reads this`blocks, this`known, this`partitionMap, this`log
    {
      Copy(blocks, known, partitionMap, log)
    }

    function State(): Accounts
      reads this`currentBlock
    {
      currentBlock.header.stateRoot
    }

    function Here(): Site
      reads this`partitionMap
    {
      Site(cfg, partitionMap, shardId)
    }

    /** The state under the current root can be read, and is what the chain's blocks and partition
        steps lead to. */
    ghost predicate Faithful()
      reads this`currentBlock, this`known, this`partitionMap, this`log
    {
      State() in known && Replayed(State(), partitionMap) == Replay(cfg, shardId, log)
    }

    constructor (c: Config, id: ShardId)
      ensures Valid() && AllSealed() && Faithful() && Snapshot() == FRESH_COPY && log == []
        && partitionMap == map[] && cfg == c && shardId == id
    {
      cfg, shardId := c, id;
      currentBlock, storage, known, partitionMap := GENESIS, map[GENESIS.header := GENESIS], {map[]}, map[];
      blocks, log := [GENESIS], [];
    }

    method UpdatePartitionMap(key: Addr, val: ShardId)
      modifies this`partitionMap
      ensures partitionMap == old(partitionMap)[key := val]
    {
      partitionMap := partitionMap[key := val];
    }

    method GetPartitionMap(key: Addr) returns (k: ShardId)
      ensures k == HomeOf(cfg, partitionMap, key)
    {
      if key !in partitionMap {
        return cfg.defaultHome(key);
      }
      k := partitionMap[key];
    }

    /** One transaction of a block on the trie being built; `changed` says whether it wrote. */
    method Apply(st: Accounts, tx: Tx, i: nat) returns (st': Accounts, changed: bool)
      ensures st' == ExecTx(Here(), st, tx, i) && (!changed ==> st' == st)
      // A debit takes place here if the sender lives here or a broker takes part, and not again for a relayed
      // transaction; a credit if the recipient lives here or a broker takes part. Without the money for the
      // debit nothing happens.
      ensures var debits := !tx.relayed && (HomeOf(cfg, partitionMap, tx.sender) == shardId || tx.hasBroker);
        var credits := HomeOf(cfg, partitionMap, tx.recipient) == shardId || tx.hasBroker;
        var poor := debits && (if tx.sender in st then st[tx.sender].balance else INIT_BALANCE) < tx.value;
        (poor ==> st' == st && !changed)
        && (!poor ==> forall a :: Balance(st', a) + (if debits && a == tx.sender then tx.value else 0)
                               == Balance(st, a) + (if credits && a == tx.recipient then tx.value else 0))
      ensures forall a :: a in st ==> a in st' && st'[a].nonce == st[a].nonce
      ensures forall a :: a in st' && a !in st ==> (a == tx.sender || a == tx.recipient) && st'[a].nonce == i
    {
      ExecTxPlain(Here(), st, tx, i);
      ExecTxNonces(Here(), st, tx, i);
      st', changed := ApplyPhases(st, tx, i);
    }

    /** The two phases, on the trie being built. */
    method ApplyPhases(st: Accounts, tx: Tx, i: nat) returns (st': Accounts, changed: bool)
      ensures st' == ExecTx(Here(), st, tx, i) && (!changed ==> st' == st)
      ensures Starves(Here(), st, tx) ==> !changed
    {
      st', changed := st, false;
      var ssid := GetPartitionMap(tx.sender);
      if !tx.relayed && (ssid == shardId || tx.hasBroker) {
        var s := if tx.sender in st' then st'[tx.sender] else AccountState(i, INIT_BALANCE);
        if s.balance < tx.value {
          return;
        }
        st' := st'[tx.sender := s.(balance := s.balance - tx.value)];
        changed := true;
      }
      var rsid := GetPartitionMap(tx.recipient);
      if rsid == shardId || tx.hasBroker {
        var r := if tx.recipient in st' then st'[tx.recipient] else AccountState(i, INIT_BALANCE);
        st' := st'[tx.recipient := r.(balance := r.balance + tx.value)];
        changed := true;
      }
    }

    /** Executes a body on the current state and stores the result; None when the trie of the
        current root is missing. */
    method GetUpdateStatusTrie(txs: seq<Tx>) returns (root: Option<Accounts>)
      modifies this`known
      ensures root == if txs == [] || State() in old(known) then Some(Execute(Here(), State(), txs)) else None
      ensures known == if txs != [] && root.Some? then old(known) + {root.value} else old(known)
    {
      if txs == [] {
        return Some(State());
      }
      if State() !in known {
        return None;
      }
      var st, cnt := State(), 0;
      for i := 0 to |txs|
        invariant st == Execute(Here(), State(), txs[..i]) && cnt >= 0 && (cnt == 0 ==> st == State())
        invariant known == old(known)
      {
        ExecuteSnoc(Here(), State(), txs, i);
        var changed;
        st, changed := Apply(st, txs[i], i);
        if changed {
          cnt := cnt + 1;
        }
      }
      assert txs[..|txs|] == txs;
      if cnt != 0 {
        known := known + {st};
      } else {
        assert known + {st} == known;
      }
      root := Some(st);
    }

    /** Mines a block on the current one: adding it later keeps the state faithful. */
    method GenerateBlock(txs: seq<Tx>, miner: int) returns (b: Option<Block>)
      modifies this`known
      ensures b.Some? <==> txs == [] || State() in old(known)
      ensures b.Some? ==> b.value == Mined(currentBlock, txs, Execute(Here(), State(), txs), miner)
      ensures b.Some? ==>
        b.value.body == txs && b.value.header.miner == miner
        && b.value.header.stateRoot == Execute(Here(), State(), txs)
        && b.value.header.parent == Some(currentBlock.header) && b.value.header.number == currentBlock.header.number + 1
      ensures b.Some? && State() in old(known) ==> b.value.header.stateRoot in known
      ensures known == if b.Some? then KnownAfter(Here(), currentBlock, old(known), txs) else old(known)
      ensures Valid() ==>
        Perform(cfg, shardId, old(Snapshot()), Mine(txs)) == if b.None? then None else Some(Snapshot())
    {
      var root := GetUpdateStatusTrie(txs);
      if root.None? {
        return None;
      }
      b := Some(Mined(currentBlock, txs, root.value, miner));
    }

    /** Makes `b` the current block. */
    method Append(b: Block, ghost entry: Entry)
      requires Valid() && Fits(currentBlock, b)
      modifies this`currentBlock, this`storage, this`blocks, this`log
      ensures Valid() && currentBlock == b && blocks == old(blocks) + [b] && log == old(log) + [entry]
      ensures old(AllSealed()) ==> (AllSealed() <==> Sealed(b))
    {
      ghost var n := |blocks|;
      assert b.header.number == n by {
        assert StoredAt(n - 1);
      }
      currentBlock := b;
      storage := storage[b.header := b];
      blocks, log := blocks + [b], log + [entry];
      forall i: nat | i < |blocks| ensures StoredAt(i) {
        if i < n {
          assert old(StoredAt(i));
        }
      }
      forall i: nat | i + 1 < |blocks| ensures LinkedAt(i) {
        if i + 1 < n {
          assert old(LinkedAt(i));
        }
      }
      if old(AllSealed()) {
        forall i: nat | i < n ensures SealedAt(i) {
          assert old(SealedAt(i));
        }
        assert SealedAt(n) <==> Sealed(b);
      }
    }

    /** Appends a block that fits. Execution is skipped when the block's root is already known; the
        state stays faithful if and only if that root is the one execution leads to, and can be read
        if and only if it is that one or was known. */
    method AddBlock(b: Block) returns (r: AddResult)
      requires Valid()
      modifies this`currentBlock, this`storage, this`known, this`blocks, this`log
      ensures Valid() && r == Adding(old(currentBlock), old(known), b)
      // Refused exactly if number or parent does not fit; a known root is not executed; an unknown one is, and
      // that needs the state of the current block unless the body is empty.
      ensures r == Refused <==>
        b.header.number != old(currentBlock).header.number + 1 || b.header.parent != Some(old(currentBlock).header)
      ensures r != Refused && b.header.stateRoot in old(known) ==> r == Added && known == old(known)
      ensures r == Crashed <==>
        r != Refused && b.header.stateRoot !in old(known) && b.body != [] && old(State()) !in old(known)
      ensures r == Added && b.header.stateRoot !in old(known) && b.body != [] ==>
        known == old(known) + {Execute(Here(), old(State()), b.body)}
      ensures known == KnownAfterAdd(Here(), old(currentBlock), old(known), b)
      ensures r != Added ==>
        currentBlock == old(currentBlock) && blocks == old(blocks) && known == old(known) && log == old(log)
      ensures r == Added ==> currentBlock == b && blocks == old(blocks) + [b] && log == old(log) + [Executed(b.body)]
      ensures Perform(cfg, shardId, old(Snapshot()), Commit(BlockRequest(b)))
           == if r == Crashed then None else Some(Snapshot())
      ensures r == Added ==> (State() in known <==>
        b.header.stateRoot in old(known)
        || (b.body != [] && b.header.stateRoot == Execute(Here(), old(State()), b.body)))
      ensures old(Faithful()) && r != Refused ==> r == Added
      ensures old(Faithful()) && r == Added ==>
        (Faithful() <==> b.header.stateRoot == Execute(Here(), old(State()), b.body))
      ensures old(AllSealed()) && r == Added ==> (AllSealed() <==> Sealed(b))
    {
      if b.header.number != currentBlock.header.number + 1 {
        return Refused;
      }
      if b.header.parent != Some(currentBlock.header) {
        return Refused;
      }
      if b.header.stateRoot !in known {
        var root := GetUpdateStatusTrie(b.body);
        if root.None? {
          return Crashed;
        }
      }
      Append(b, Executed(b.body));
      assert log[..|log| - 1] == old(log);
      r := Added;
    }

    method IsValidBlock(b: Block) returns (ok: bool)
      ensures ok == Blocks.IsValidBlock(currentBlock, b)
      ensures ok <==>
        b.header.parent == Some(currentBlock.header)
        && forall h :: h in b.header.txRoot <==> exists tx :: tx in b.body && tx.hash == h
    {
      if b.header.parent != Some(currentBlock.header) {
        return false;
      }
      ok := TxRoot(b.body) == b.header.txRoot;
    }

    /** Builds and appends a partition block. `m` is the map that was laid over the partition map
        since the last block. The block is the same on every replica with the same chain. */
    method AddAccounts(ac: seq<Addr>, states: seq<AccountState>, ghost m: PartitionMap) returns (r: AddResult)
      requires Valid() && |ac| == |states|
      modifies this`currentBlock, this`storage, this`known, this`blocks, this`log
      ensures Valid() && (r == Crashed <==> ac != [] && old(State()) !in old(known)) && r != Refused
      ensures r == Crashed ==> currentBlock == old(currentBlock) && blocks == old(blocks) && known == old(known)
      ensures r == Added ==> currentBlock.body == [] && currentBlock.header.miner == 0
      ensures r == Added ==> OnlyHomedAdded(Here(), old(State()), State(), ac, states)
      ensures r == Added ==>
        currentBlock == PartitionBlock(Here(), old(currentBlock), Listed(ac, states))
        && known == if ac == [] then old(known) else old(known) + {State()}
      ensures r == Added ==>
        log == old(log) + [Migrated(m, Listed(ac, states))] && blocks == old(blocks) + [currentBlock]
      ensures r == Added && old(State()) in old(known) && partitionMap == Replay(cfg, shardId, old(log)).pmap + m
           && old(State()) == Replay(cfg, shardId, old(log)).accounts
        ==> Faithful()
      ensures old(AllSealed()) && r == Added ==> AllSealed()
      ensures r == Added && old(State()) in old(known) ==> State() in known
    {
      if ac != [] && State() !in known {
        return Crashed;
      }
      ListedAdds(Here(), State(), ac, states);
      var st := WithAccounts(ac, states);
      if ac != [] {
        known := known + {st};
      }
      MinedIsSealed(currentBlock, [], st, 0);
      Append(Mined(currentBlock, [], st, 0), Migrated(m, Listed(ac, states)));
      assert log[..|log| - 1] == old(log);
      r := Added;
    }

    /** The current state with the listed accounts that live here. */
    method WithAccounts(ac: seq<Addr>, states: seq<AccountState>) returns (st: Accounts)
      requires |ac| == |states|
      ensures st == Shards.AddAccounts(Here(), State(), Listed(ac, states)) && (ac == [] ==> st == State())
    {
      st := State();
      for i := 0 to |ac|
        invariant st == Shards.AddAccounts(Here(), State(), Listed(ac[..i], states[..i]))
      {
        ListedSnoc(Here(), State(), ac, states, i);
        var home := GetPartitionMap(ac[i]);
        if home == shardId {
          st := st[ac[i] := states[i]];
        }
      }
      assert ac[..|ac|] == ac && states[..|ac|] == states;
    }

    /** The accounts as a migration ships them; None when the trie of the current root is missing. */
    method FetchAccounts(addrs: seq<Addr>) returns (res: Option<seq<AccountState>>)
      ensures res.Some? <==> State() in known
      ensures res.Some? ==> |res.value| == |addrs|
      ensures res.Some? ==> forall i :: 0 <= i < |addrs| ==> res.value[i] == Fetch(State(), addrs[i], 0)
    {
      if State() !in known {
        return None;
      }
      var states: seq<AccountState> := [];
      for i := 0 to |addrs|
        invariant |states| == i && forall j :: 0 <= j < i ==> states[j] == Fetch(State(), addrs[j], 0)
      {
        var s := if addrs[i] in State() then State()[addrs[i]] else AccountState(0, INIT_BALANCE);
        states := states + [s];
      }
      res := Some(states);
    }

    // ---------- Proof search ----------

    static method TxProofGenerateOnTheBlock(txHash: nat, b: Block) returns (found: bool)
      ensures found <==> FindsOn(b, txHash)
      ensures found <==>
        txHash % BLOOM_BITS in b.header.bloom && (exists tx :: tx in b.body && tx.hash == txHash)
        && forall h :: h in b.header.txRoot <==> exists tx :: tx in b.body && tx.hash == h
    {
      if txHash % BLOOM_BITS !in b.header.bloom {
        return false;
      }
      var present := false;
      for i := 0 to |b.body|
        invariant present <==> exists j :: 0 <= j < i && b.body[j].hash == txHash
      {
        if b.body[i].hash == txHash {
          present := true;
        }
      }
      if !present {
        assert txHash !in TxRoot(b.body);
        return false;
      }
      found := TxRoot(b.body) == b.header.txRoot;
    }

    ghost predicate FindsAt(i: nat, txHash: nat)
      reads this`blocks
      requires i < |blocks|
    {
      FindsOn(blocks[i], txHash)
    }

    /** Walks back from the current block. The height returned is that of the highest block on which
        the search succeeds; there is none only when it succeeds on no block after the genesis. */
    method TxProofGenerate(txHash: nat) returns (height: Option<nat>)
      requires Valid()
      ensures height.Some? ==> 0 < height.value < |blocks| && FindsAt(height.value, txHash)
      ensures forall i: nat :: (if height.Some? then height.value else 0) < i < |blocks| ==> !FindsAt(i, txHash)
    {
      var hash, h := currentBlock.header, currentBlock.header.number;
      assert StoredAt(|log|);
      while h > 0
        invariant 0 <= h < |blocks| && hash == blocks[h].header
        invariant forall i: nat :: h < i < |blocks| ==> !FindsAt(i, txHash)
      {
        assert StoredAt(h) && LinkedAt(h - 1);
        if hash !in storage {
          return None;
        }
        var b := storage[hash];
        var found := TxProofGenerateOnTheBlock(txHash, b);
        if found {
          assert FindsAt(h, txHash);
          return Some(b.header.number);
        }
        match b.header.parent {
          case Some(p) => hash := p;
          case None =>
        }
        h := h - 1;
      }
      height := None;
    }

    /** On a sealed chain the search is sound and complete: it finds a transaction if and only if
        some block holds it, and then in the highest such block. */
    method FindTx(txHash: nat) returns (height: Option<nat>)
      requires Valid() && AllSealed()
      ensures height.Some? <==> exists i :: 0 < i < |blocks| && exists tx :: tx in blocks[i].body && tx.hash == txHash
      ensures height.Some? ==> 0 < height.value < |blocks|
      ensures height.Some? ==> exists tx :: tx in blocks[height.value].body && tx.hash == txHash
      ensures height.Some? ==>
        forall i, tx :: height.value < i < |blocks| && tx in blocks[i].body ==> tx.hash != txHash
    {
      height := TxProofGenerate(txHash);
      forall i: nat | i < |blocks|
        ensures FindsAt(i, txHash) <==> exists tx :: tx in blocks[i].body && tx.hash == txHash
      {
        assert SealedAt(i);
        SealedFinds(blocks[i], txHash);
      }
    }
  }
}
