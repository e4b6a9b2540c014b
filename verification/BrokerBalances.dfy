/**
 Broker mode, end to end: when everything the supervisor sent was executed once, and no debit of a broker
 failed, every other account has at its home the balance the direct transfers give it.
 */
module BrokerBalances {
  import opened Ledger
  import opened Execution
  import opened Brokers
  import opened BrokerRuns
  import opened BrokerCommittee

  // ---------- Where transactions go ----------

  /** The account a transaction is executed for: its recipient if it comes from a broker, else its sender. */
  function Carrier(brokers: seq<Addr>, tx: Tx): Addr {
    if tx.sender in brokers then tx.recipient else tx.sender
  }

  /** The shard the supervisor sends a transaction to. */
  function Route(cfg: Config, brokers: seq<Addr>, tx: Tx): ShardId {
    cfg.defaultHome(Carrier(brokers, tx))
  }

  /** Every party that is no broker is at home here. */
  predicate Placed(site: Site, brokers: seq<Addr>, tx: Tx) {
    !tx.relayed && (tx.sender in brokers || Local(site, tx.sender))
      && (tx.recipient in brokers || Local(site, tx.recipient))
  }

  /** A half goes where the account it is for lives. */
  lemma HalfIsPlaced(cfg: Config, brokers: seq<Addr>, tx: Tx, dealt: seq<Tx>)
    requires brokers != [] && HalfOf(tx, dealt, brokers[0])
    requires forall raw :: raw in dealt ==> raw.sender !in brokers && raw.recipient !in brokers
    ensures Placed(Site(cfg, map[], Route(cfg, brokers, tx)), brokers, tx)
  {
    var raw :| raw in dealt && (tx == Tx1(raw, brokers[0]) || tx == Tx2(raw, brokers[0]));
    assert brokers[0] in brokers;
  }

  /** What is not split has its parties in one shard, or a broker among them. */
  lemma {:induction false} UnsplitIsPlaced(cfg: Config, brokers: seq<Addr>, dataset: seq<Tx>)
    requires forall tx :: tx in dataset ==> !tx.relayed
    ensures forall tx :: tx in ToSend(cfg.defaultHome, brokers, dataset) ==>
      Placed(Site(cfg, map[], Route(cfg, brokers, tx)), brokers, tx)
    ensures forall raw :: raw in ToSplit(cfg.defaultHome, brokers, dataset) ==>
      raw.sender !in brokers && raw.recipient !in brokers
  {
    if dataset != [] {
      var init, last := dataset[..|dataset| - 1], dataset[|dataset| - 1];
      assert last in dataset && forall tx :: tx in init ==> tx in dataset;
      UnsplitIsPlaced(cfg, brokers, init);
    }
  }

  lemma FlowMaybe(txs: seq<Tx>, tx: Tx, more: bool, a: Addr, dir: Direction)
    ensures Flow(txs + if more then [tx] else [], a, dir) == Flow(txs, a, dir) + if more then Amount(tx, a, dir) else 0
  {
    if more {
      FlowSnoc(txs, tx, a, dir);
    } else {
      assert txs + [] == txs;
    }
  }

  lemma DealingLast(home: Addr -> ShardId, brokers: seq<Addr>, init: seq<Tx>, last: Tx)
    ensures ToSplit(home, brokers, init + [last])
         == ToSplit(home, brokers, init) + if NeedsSplit(home, brokers, last) then [last] else []
    ensures ToSend(home, brokers, init + [last])
         == ToSend(home, brokers, init) + if !NeedsSplit(home, brokers, last) then [Flagged(brokers, last)] else []
  {
    assert (init + [last])[..|init + [last]| - 1] == init;
  }

  /** Splitting a dataset loses and adds no amount. */
  lemma {:induction false} DealingKeepsFlow(home: Addr -> ShardId, brokers: seq<Addr>, dataset: seq<Tx>, a: Addr,
      dir: Direction)
    ensures Flow(ToSplit(home, brokers, dataset), a, dir) + Flow(ToSend(home, brokers, dataset), a, dir)
         == Flow(dataset, a, dir)
  {
    if dataset != [] {
      var init, last := dataset[..|dataset| - 1], dataset[|dataset| - 1];
      assert dataset == init + [last];
      DealingKeepsFlow(home, brokers, init, a, dir);
      DealingLast(home, brokers, init, last);
      var split := NeedsSplit(home, brokers, last);
      FlowMaybe(ToSplit(home, brokers, init), last, split, a, dir);
      FlowMaybe(ToSend(home, brokers, init), Flagged(brokers, last), !split, a, dir);
      FlowSnoc(init, last, a, dir);
    }
  }

  // ---------- Blocks ----------

  datatype Done = Done(shard: ShardId, body: seq<Tx>)

  /** The accounts of shard `k` after the blocks. */
  function StateOf(cfg: Config, blocks: seq<Done>, k: ShardId): Accounts {
    if blocks == [] then map[]
    else
      var acc, last := StateOf(cfg, blocks[..|blocks| - 1], k), blocks[|blocks| - 1];
      if last.shard == k then Execute(Site(cfg, map[], k), acc, last.body) else acc
  }

  function Bodies(blocks: seq<Done>): seq<Tx> {
    if blocks == [] then [] else Bodies(blocks[..|blocks| - 1]) + blocks[|blocks| - 1].body
  }

  /** A debit of a broker fails in the body. */
  predicate BrokerStarves(site: Site, brokers: seq<Addr>, acc: Accounts, body: seq<Tx>) {
    if body == [] then false
    else
      var i := |body| - 1;
      BrokerStarves(site, brokers, acc, body[..i])
      || (body[i].sender in brokers && Starves(site, Execute(site, acc, body[..i]), body[i]))
  }

  predicate SomeBrokerStarves(cfg: Config, brokers: seq<Addr>, blocks: seq<Done>) {
    if blocks == [] then false
    else
      var init, last := blocks[..|blocks| - 1], blocks[|blocks| - 1];
      SomeBrokerStarves(cfg, brokers, init)
      || BrokerStarves(Site(cfg, map[], last.shard), brokers, StateOf(cfg, init, last.shard), last.body)
  }

  /** Every transaction was executed where it is placed. */
  ghost predicate AllPlaced(site: Site, brokers: seq<Addr>, body: seq<Tx>) {
    forall tx :: tx in body ==> Placed(site, brokers, tx)
  }

  ghost predicate BlocksPlaced(cfg: Config, brokers: seq<Addr>, blocks: seq<Done>) {
    forall i :: 0 <= i < |blocks| ==> AllPlaced(Site(cfg, map[], blocks[i].shard), brokers, blocks[i].body)
  }

  /** Account `a`, which is no broker and at home here, has what it had at first, plus what it received
      and minus what it sent by `past`. */
  predicate Settled(acc: Accounts, past: seq<Tx>, a: Addr) {
    Balance(acc, a) + Flow(past, a, Outgoing) == INIT_BALANCE + Flow(past, a, Incoming)
  }

  ghost predicate AllSettled(site: Site, brokers: seq<Addr>, acc: Accounts, past: seq<Tx>) {
    forall a :: a !in brokers && Local(site, a) ==> Settled(acc, past, a)
  }

  ghost predicate NonBrokersFunded(brokers: seq<Addr>, txs: seq<Tx>) {
    forall a :: a !in brokers ==> Flow(txs, a, Outgoing) <= INIT_BALANCE
  }

  lemma PlacedMoves(site: Site, brokers: seq<Addr>, acc: Accounts, tx: Tx, i: nat, a: Addr)
    requires Placed(site, brokers, tx) && !Starves(site, acc, tx) && a !in brokers && Local(site, a)
    ensures Balance(ExecTx(site, acc, tx, i), a) + Amount(tx, a, Outgoing) == Balance(acc, a) + Amount(tx, a, Incoming)
  {
  }

  lemma ExecSettles(site: Site, brokers: seq<Addr>, acc: Accounts, past: seq<Tx>, tx: Tx, i: nat, a: Addr)
    requires Placed(site, brokers, tx) && !Starves(site, acc, tx)
    requires a !in brokers && Local(site, a) && Settled(acc, past, a)
    ensures Settled(ExecTx(site, acc, tx, i), past + [tx], a)
  {
    PlacedMoves(site, brokers, acc, tx, i, a);
    FlowSnoc(past, tx, a, Outgoing);
    FlowSnoc(past, tx, a, Incoming);
  }

  /** A sender that is no broker can pay. */
  lemma SenderPays(site: Site, brokers: seq<Addr>, acc: Accounts, past: seq<Tx>, tx: Tx)
    requires Placed(site, brokers, tx) && tx.sender !in brokers && AllSettled(site, brokers, acc, past)
    requires NonBrokersFunded(brokers, past + [tx])
    ensures !Starves(site, acc, tx)
  {
    FlowSnoc(past, tx, tx.sender, Outgoing);
    assert Settled(acc, past, tx.sender);
    assert Flow(past + [tx], tx.sender, Outgoing) <= INIT_BALANCE;
  }

  lemma FundedInit(brokers: seq<Addr>, txs: seq<Tx>, more: seq<Tx>)
    requires NonBrokersFunded(brokers, txs + more)
    ensures NonBrokersFunded(brokers, txs)
  {
    forall a | a !in brokers ensures Flow(txs, a, Outgoing) <= INIT_BALANCE {
      FlowConcat(txs, more, a, Outgoing);
    }
  }

  /** Executing a body. */
  lemma {:induction false} BodySettles(site: Site, brokers: seq<Addr>, acc: Accounts, past: seq<Tx>, body: seq<Tx>)
    requires AllPlaced(site, brokers, body) && AllSettled(site, brokers, acc, past)
    requires NonBrokersFunded(brokers, past + body) && !BrokerStarves(site, brokers, acc, body)
    ensures AllSettled(site, brokers, Execute(site, acc, body), past + body)
    ensures !SomeStarve(site, acc, body)
  {
    if body == [] {
      assert past + body == past;
    } else {
      var i := |body| - 1;
      var init, tx := body[..i], body[i];
      assert past + body == past + init + [tx] && tx in body;
      FundedInit(brokers, past + init, [tx]);
      BodySettles(site, brokers, acc, past, init);
      var mid := Execute(site, acc, init);
      if tx.sender !in brokers {
        SenderPays(site, brokers, mid, past + init, tx);
      }
      forall a | a !in brokers && Local(site, a) ensures Settled(ExecTx(site, mid, tx, i), past + init + [tx], a) {
        ExecSettles(site, brokers, mid, past + init, tx, i, a);
      }
    }
  }

  /** A body executed elsewhere does not concern an account. */
  lemma {:induction false} ForeignBody(site: Site, brokers: seq<Addr>, body: seq<Tx>, a: Addr, dir: Direction)
    requires AllPlaced(site, brokers, body) && a !in brokers && !Local(site, a)
    ensures Flow(body, a, dir) == 0
  {
    if body != [] {
      var tx := body[|body| - 1];
      assert tx in body;
      ForeignBody(site, brokers, body[..|body| - 1], a, dir);
    }
  }

  lemma ForeignSettles(cfg: Config, brokers: seq<Addr>, past: seq<Tx>, last: Done, acc: Accounts, k: ShardId)
    requires AllPlaced(Site(cfg, map[], last.shard), brokers, last.body) && last.shard != k
    requires AllSettled(Site(cfg, map[], k), brokers, acc, past)
    ensures AllSettled(Site(cfg, map[], k), brokers, acc, past + last.body)
  {
    forall a | a !in brokers && Local(Site(cfg, map[], k), a) ensures Settled(acc, past + last.body, a) {
      ForeignBody(Site(cfg, map[], last.shard), brokers, last.body, a, Outgoing);
      ForeignBody(Site(cfg, map[], last.shard), brokers, last.body, a, Incoming);
      FlowConcat(past, last.body, a, Outgoing);
      FlowConcat(past, last.body, a, Incoming);
    }
  }

  /** Executing blocks in any interleaving of the shards. */
  lemma {:induction false} BlocksSettle(cfg: Config, brokers: seq<Addr>, blocks: seq<Done>, k: ShardId)
    requires BlocksPlaced(cfg, brokers, blocks) && !SomeBrokerStarves(cfg, brokers, blocks)
    requires NonBrokersFunded(brokers, Bodies(blocks))
    ensures AllSettled(Site(cfg, map[], k), brokers, StateOf(cfg, blocks, k), Bodies(blocks))
  {
    if blocks != [] {
      var init, last := blocks[..|blocks| - 1], blocks[|blocks| - 1];
      FundedInit(brokers, Bodies(init), last.body);
      BlocksSettle(cfg, brokers, init, k);
      if last.shard == k {
        BodySettles(Site(cfg, map[], k), brokers, StateOf(cfg, init, k), Bodies(init), last.body);
      } else {
        ForeignSettles(cfg, brokers, Bodies(init), last, StateOf(cfg, init, k), k);
      }
    }
  }

  // ---------- The whole mode ----------

  /** All blocks together executed what the supervisor sent, once each, and each where it was sent. */
  ghost predicate ExecutedAll(cfg: Config, brokers: seq<Addr>, blocks: seq<Done>, sent: seq<Tx>) {
    multiset(Bodies(blocks)) == multiset(sent)
    && forall i, tx :: 0 <= i < |blocks| && tx in blocks[i].body ==> blocks[i].shard == Route(cfg, brokers, tx)
  }

  lemma {:induction false} InBodies(blocks: seq<Done>, i: nat, tx: Tx)
    requires i < |blocks| && tx in blocks[i].body
    ensures tx in Bodies(blocks)
  {
    if i < |blocks| - 1 {
      InBodies(blocks[..|blocks| - 1], i, tx);
    }
  }

  lemma ExecutedIsPlaced(cfg: Config, brokers: seq<Addr>, blocks: seq<Done>, sent: seq<Tx>)
    requires ExecutedAll(cfg, brokers, blocks, sent)
    requires forall tx :: tx in sent ==> Placed(Site(cfg, map[], Route(cfg, brokers, tx)), brokers, tx)
    ensures BlocksPlaced(cfg, brokers, blocks)
  {
    forall i | 0 <= i < |blocks| ensures AllPlaced(Site(cfg, map[], blocks[i].shard), brokers, blocks[i].body) {
      forall tx | tx in blocks[i].body ensures Placed(Site(cfg, map[], blocks[i].shard), brokers, tx) {
        InBodies(blocks, i, tx);
        assert tx in multiset(Bodies(blocks));
        assert tx in sent;
      }
    }
  }

  lemma SentMovesLikeDataset(cfg: Config, brokers: seq<Addr>, run: seq<World>, dataset: seq<Tx>, a: Addr,
      dir: Direction)
    requires brokers != [] && IsBrokerRun(brokers[0], run) && AllReported(run[|run| - 1]) && a !in brokers
    requires run[|run| - 1].dealt == ToSplit(cfg.defaultHome, brokers, dataset)
    ensures Flow(run[|run| - 1].sent + ToSend(cfg.defaultHome, brokers, dataset), a, dir) == Flow(dataset, a, dir)
  {
    SentMovesLikeDealt(brokers[0], run, |run| - 1, a, dir);
    FlowConcat(run[|run| - 1].sent, ToSend(cfg.defaultHome, brokers, dataset), a, dir);
    DealingKeepsFlow(cfg.defaultHome, brokers, dataset, a, dir);
  }

  /** What executed blocks sent and received is what the dataset says. */
  lemma ExecutedMovesLikeDataset(cfg: Config, brokers: seq<Addr>, run: seq<World>, dataset: seq<Tx>, blocks: seq<Done>,
                                 a: Addr, dir: Direction)
    requires brokers != [] && IsBrokerRun(brokers[0], run) && AllReported(run[|run| - 1]) && a !in brokers
    requires run[|run| - 1].dealt == ToSplit(cfg.defaultHome, brokers, dataset)
    requires ExecutedAll(cfg, brokers, blocks, run[|run| - 1].sent + ToSend(cfg.defaultHome, brokers, dataset))
    ensures Flow(Bodies(blocks), a, dir) == Flow(dataset, a, dir)
  {
    var sent := run[|run| - 1].sent + ToSend(cfg.defaultHome, brokers, dataset);
    FlowMonotone(Bodies(blocks), sent, a, dir);
    FlowMonotone(sent, Bodies(blocks), a, dir);
    SentMovesLikeDataset(cfg, brokers, run, dataset, a, dir);
  }

  lemma SentIsPlaced(cfg: Config, brokers: seq<Addr>, run: seq<World>, dataset: seq<Tx>)
    requires brokers != [] && IsBrokerRun(brokers[0], run) && forall tx :: tx in dataset ==> !tx.relayed
    requires run[|run| - 1].dealt == ToSplit(cfg.defaultHome, brokers, dataset)
    ensures forall tx :: tx in run[|run| - 1].sent + ToSend(cfg.defaultHome, brokers, dataset) ==>
      Placed(Site(cfg, map[], Route(cfg, brokers, tx)), brokers, tx)
  {
    var w := run[|run| - 1];
    UnsplitIsPlaced(cfg, brokers, dataset);
    RunFromDealt(brokers[0], run, |run| - 1);
    forall tx | tx in w.sent ensures Placed(Site(cfg, map[], Route(cfg, brokers, tx)), brokers, tx) {
      HalfIsPlaced(cfg, brokers, tx, w.dealt);
    }
  }

  /** Broker mode pays everybody but the brokers as the reference ledger does: on a funded dataset, split
      and sent over any run until everything was reported, and executed in blocks of any interleaving in
      which no debit of a broker failed, every account that is no broker has at its home the reference
      balance. */
  lemma NonBrokersHaveReferenceBalance(cfg: Config, brokers: seq<Addr>, run: seq<World>, dataset: seq<Tx>,
                                       blocks: seq<Done>, a: Addr)
    requires brokers != [] && IsBrokerRun(brokers[0], run) && AllReported(run[|run| - 1])
    requires run[|run| - 1].dealt == ToSplit(cfg.defaultHome, brokers, dataset)
    requires Funded(dataset) && forall tx :: tx in dataset ==> !tx.relayed
    requires ExecutedAll(cfg, brokers, blocks, run[|run| - 1].sent + ToSend(cfg.defaultHome, brokers, dataset))
    requires !SomeBrokerStarves(cfg, brokers, blocks) && a !in brokers
    ensures Balance(StateOf(cfg, blocks, cfg.defaultHome(a)), a) == RefBalance(Reference(dataset), a)
  {
    var home := cfg.defaultHome(a);
    SentIsPlaced(cfg, brokers, run, dataset);
    ExecutedIsPlaced(cfg, brokers, blocks, run[|run| - 1].sent + ToSend(cfg.defaultHome, brokers, dataset));
    forall b | b !in brokers ensures Flow(Bodies(blocks), b, Outgoing) <= INIT_BALANCE {
      ExecutedMovesLikeDataset(cfg, brokers, run, dataset, blocks, b, Outgoing);
    }
    BlocksSettle(cfg, brokers, blocks, home);
    assert Settled(StateOf(cfg, blocks, home), Bodies(blocks), a);
    ExecutedMovesLikeDataset(cfg, brokers, run, dataset, blocks, a, Outgoing);
    ExecutedMovesLikeDataset(cfg, brokers, run, dataset, blocks, a, Incoming);
    ReferenceBalances(dataset, a);
  }
}
