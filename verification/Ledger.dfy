/**
 Accounts, transactions, block execution and the sequential reference ledger.
 */
module Ledger {
  import opened Basics

  type Addr = string
  type ShardId = nat
  type PartitionMap = map<Addr, ShardId>
  type Accounts = map<Addr, AccountState>

  const INIT_BALANCE: nat := 100000000000000000000000000000000000000000000

  datatype AccountState = AccountState(nonce: nat, balance: nat)

  /** A transaction; `hash` stands for its (injective) transaction hash. */
  datatype Tx = Tx(
    hash: nat, sender: Addr, recipient: Addr, value: nat, relayed: bool,
    hasBroker: bool, senderIsBroker: bool,
    originalSender: Addr, finalRecipient: Addr, rawHash: Option<nat>)

  /** Number of shards and the address-derived home of an account. */
  datatype Config = Config(shards: nat, defaultHome: Addr -> ShardId) {
    ghost predicate Valid() {
      shards > 0 && forall a :: defaultHome(a) < shards
    }
  }

  /** The place a block is executed at: a shard and its partition map. */
  datatype Site = Site(cfg: Config, pmap: PartitionMap, shard: ShardId)

  function HomeOf(cfg: Config, pmap: PartitionMap, a: Addr): ShardId {
    if a in pmap then pmap[a] else cfg.defaultHome(a)
  }

  predicate Local(site: Site, a: Addr) {
    HomeOf(site.cfg, site.pmap, a) == site.shard
  }

  /** Reads an account; a missing one has the initial balance and the given nonce. */
  function Fetch(acc: Accounts, a: Addr, nonce: nat): AccountState {
    if a in acc then acc[a] else AccountState(nonce, INIT_BALANCE)
  }

  function Balance(acc: Accounts, a: Addr): nat {
    Fetch(acc, a, 0).balance
  }

  predicate DebitsHere(site: Site, tx: Tx) {
    !tx.relayed && (Local(site, tx.sender) || tx.hasBroker)
  }

  predicate CreditsHere(site: Site, tx: Tx) {
    Local(site, tx.recipient) || tx.hasBroker
  }

  /** The balance check of a debit fails, so the transaction is skipped. */
  predicate Starves(site: Site, acc: Accounts, tx: Tx) {
    DebitsHere(site, tx) && Balance(acc, tx.sender) < tx.value
  }

  function Debit(acc: Accounts, tx: Tx, i: nat): Accounts
    requires Balance(acc, tx.sender) >= tx.value
  {
    var s := Fetch(acc, tx.sender, i);
    acc[tx.sender := s.(balance := s.balance - tx.value)]
  }

  function Credit(acc: Accounts, tx: Tx, i: nat): Accounts {
    var r := Fetch(acc, tx.recipient, i);
    acc[tx.recipient := r.(balance := r.balance + tx.value)]
  }

  /** Executes the transaction at position `i` of a block. */
  function ExecTx(site: Site, acc: Accounts, tx: Tx, i: nat): Accounts {
    if Starves(site, acc, tx) then acc
    else
      var paid := if DebitsHere(site, tx) then Debit(acc, tx, i) else acc;
      if CreditsHere(site, tx) then Credit(paid, tx, i) else paid
  }

  /** Executes a block body in order. */
  function Execute(site: Site, acc: Accounts, body: seq<Tx>): Accounts {
    if body == [] then acc
    else
      var i := |body| - 1;
      ExecTx(site, Execute(site, acc, body[..i]), body[i], i)
  }

  /** Some balance check of the block fails. */
  predicate SomeStarve(site: Site, acc: Accounts, body: seq<Tx>) {
    if body == [] then false
    else
      var i := |body| - 1;
      SomeStarve(site, acc, body[..i]) || Starves(site, Execute(site, acc, body[..i]), body[i])
  }

  // ---------- Amounts ----------

  datatype Direction = Outgoing | Incoming

  function Party(tx: Tx, dir: Direction): Addr {
    if dir == Outgoing then tx.sender else tx.recipient
  }

  function Amount(tx: Tx, a: Addr, dir: Direction): nat {
    if Party(tx, dir) == a then tx.value else 0
  }

  /** Total value the listed transactions take from (bring to) `a`. */
  function Flow(txs: seq<Tx>, a: Addr, dir: Direction): nat {
    if txs == [] then 0
    else Flow(txs[..|txs| - 1], a, dir) + Amount(txs[|txs| - 1], a, dir)
  }

  function Total(txs: seq<Tx>): nat {
    if txs == [] then 0 else Total(txs[..|txs| - 1]) + txs[|txs| - 1].value
  }

  lemma {:induction false} FlowConcat(xs: seq<Tx>, ys: seq<Tx>, a: Addr, dir: Direction)
    ensures Flow(xs + ys, a, dir) == Flow(xs, a, dir) + Flow(ys, a, dir)
  {
    if ys == [] {
      assert xs + ys == xs;
    } else {
      assert (xs + ys)[..|xs + ys| - 1] == xs + ys[..|ys| - 1];
      FlowConcat(xs, ys[..|ys| - 1], a, dir);
    }
  }

  lemma FlowRemove(xs: seq<Tx>, p: nat, a: Addr, dir: Direction)
    requires p < |xs|
    ensures Flow(xs, a, dir) == Flow(RemoveAt(xs, p), a, dir) + Amount(xs[p], a, dir)
  {
    var before, here, after := xs[..p], [xs[p]], xs[p + 1..];
    assert xs == before + here + after;
    FlowConcat(before + here, after, a, dir);
    FlowConcat(before, here, a, dir);
    FlowConcat(before, after, a, dir);
    assert here[..|here| - 1] == [];
  }

  /** Fewer transactions move no more value; with both inclusions, order does not matter. */
  lemma {:induction false} FlowMonotone(xs: seq<Tx>, ys: seq<Tx>, a: Addr, dir: Direction)
    requires multiset(xs) <= multiset(ys)
    ensures Flow(xs, a, dir) <= Flow(ys, a, dir)
  {
    if xs != [] {
      var x, init := xs[|xs| - 1], xs[..|xs| - 1];
      assert xs == init + [x];
      assert x in multiset(ys);
      var p :| 0 <= p < |ys| && ys[p] == x;
      FlowRemove(ys, p, a, dir);
      PopShared(init, ys, p);
      FlowMonotone(init, RemoveAt(ys, p), a, dir);
    }
  }

  // ---------- The reference ledger ----------

  /** One line of the dataset: both accounts exist afterwards, an unaffordable transfer is skipped. */
  function ReferenceStep(balances: map<Addr, nat>, tx: Tx): map<Addr, nat> {
    var b1 := if tx.sender in balances then balances else balances[tx.sender := INIT_BALANCE];
    var b2 := if tx.recipient in b1 then b1 else b1[tx.recipient := INIT_BALANCE];
    if b2[tx.sender] >= tx.value then
      var b3 := b2[tx.sender := b2[tx.sender] - tx.value];
      b3[tx.recipient := b3[tx.recipient] + tx.value]
    else b2
  }

  function Reference(dataset: seq<Tx>): map<Addr, nat> {
    if dataset == [] then map[]
    else ReferenceStep(Reference(dataset[..|dataset| - 1]), dataset[|dataset| - 1])
  }

  /** Every account sends at most its initial balance over the whole dataset. */
  ghost predicate Funded(txs: seq<Tx>) {
    forall a :: Flow(txs, a, Outgoing) <= INIT_BALANCE
  }

  lemma FundedPrefix(txs: seq<Tx>, more: seq<Tx>)
    requires Funded(txs + more)
    ensures Funded(txs)
  {
    forall a ensures Flow(txs, a, Outgoing) <= INIT_BALANCE {
      FlowConcat(txs, more, a, Outgoing);
    }
  }

  function RefBalance(balances: map<Addr, nat>, a: Addr): nat {
    if a in balances then balances[a] else INIT_BALANCE
  }

  lemma ReferenceStepBalances(balances: map<Addr, nat>, tx: Tx, a: Addr)
    requires RefBalance(balances, tx.sender) >= tx.value
    ensures RefBalance(ReferenceStep(balances, tx), a) + Amount(tx, a, Outgoing)
         == RefBalance(balances, a) + Amount(tx, a, Incoming)
  {
  }

  /** On a funded dataset the reference ledger is initial balance plus received minus sent. */
  lemma {:induction false} ReferenceBalances(dataset: seq<Tx>, a: Addr)
    requires Funded(dataset)
    ensures RefBalance(Reference(dataset), a) + Flow(dataset, a, Outgoing)
         == INIT_BALANCE + Flow(dataset, a, Incoming)
  {
    if dataset != [] {
      var init, tx := dataset[..|dataset| - 1], dataset[|dataset| - 1];
      assert dataset == init + [tx];
      FundedPrefix(init, [tx]);
      ReferenceBalances(init, a);
      ReferenceBalances(init, tx.sender);
      assert Flow(dataset, tx.sender, Outgoing) <= INIT_BALANCE;
      ReferenceStepBalances(Reference(init), tx, a);
    }
  }
}
