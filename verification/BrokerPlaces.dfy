/**
 Which account a transaction of the broker mode belongs to: the queue split, which sees only the transaction's
 fields, takes it along with the account the supervisor routed it by.
 */
module BrokerPlaces {
  import opened Basics
  import opened Ledger
  import opened TxPool
  import opened QueueSplits
  import opened Brokers
  import opened BrokerRuns
  import opened BrokerCommittee
  import opened BrokerBalances

  /** A line of the dataset: no half of anything, and not flagged. */
  predicate Plain(tx: Tx) {
    tx.rawHash.None? && !tx.hasBroker && !tx.relayed
  }

  /** What is split has its parties in two shards and no broker among them; nothing else is split. */
  lemma {:induction false} SplitExactly(home: Addr -> ShardId, brokers: seq<Addr>, txs: seq<Tx>, tx: Tx)
    ensures tx in ToSplit(home, brokers, txs) <==>
      tx in txs && home(tx.sender) != home(tx.recipient) && tx.sender !in brokers && tx.recipient !in brokers
  {
    if txs != [] {
      var init, last := txs[..|txs| - 1], txs[|txs| - 1];
      assert txs == init + [last];
      SplitExactly(home, brokers, init, tx);
    }
  }

  lemma {:induction false} SentOrigin(home: Addr -> ShardId, brokers: seq<Addr>, txs: seq<Tx>, tx: Tx)
    returns (origin: Tx)
    requires tx in ToSend(home, brokers, txs)
    ensures origin in txs && !NeedsSplit(home, brokers, origin) && tx == Flagged(brokers, origin)
  {
    var init, last := txs[..|txs| - 1], txs[|txs| - 1];
    if tx in ToSend(home, brokers, init) {
      origin := SentOrigin(home, brokers, init, tx);
    } else {
      origin := last;
    }
  }

  /** What is not split is sent with its parties and value as they were, flagged exactly if one of them is a
      broker, and with the flag saying which. */
  lemma SentFlags(home: Addr -> ShardId, brokers: seq<Addr>, txs: seq<Tx>, tx: Tx) returns (origin: Tx)
    requires (forall t :: t in txs ==> Plain(t)) && tx in ToSend(home, brokers, txs)
    ensures origin in txs && origin.sender == tx.sender && origin.recipient == tx.recipient && origin.value == tx.value
    ensures tx.rawHash.None? && !tx.relayed
    ensures tx.hasBroker <==> tx.sender in brokers || tx.recipient in brokers
    ensures tx.hasBroker ==> (tx.senderIsBroker <==> tx.sender in brokers)
    ensures tx.hasBroker || home(tx.sender) == home(tx.recipient)
  {
    origin := SentOrigin(home, brokers, txs, tx);
    assert Plain(origin);
  }

  /** The queue split takes every flagged transaction along with the account it was routed by. */
  lemma FlaggedGoesWithCarrier(home: Addr -> ShardId, brokers: seq<Addr>, txs: seq<Tx>, tx: Tx)
    requires (forall t :: t in txs ==> Plain(t)) && tx in ToSend(home, brokers, txs)
    requires tx.sender in brokers || tx.recipient in brokers
    ensures WithBroker(tx) && WellFormed(tx) && Placer(tx) == if tx.sender in brokers then tx.recipient else tx.sender
  {
    var origin := SentFlags(home, brokers, txs, tx);
  }

  /** A tx1 goes with the sender of the raw transaction, a tx2 with its recipient: again the account it was
      routed by. */
  lemma HalfGoesWithCarrier(brokers: seq<Addr>, raw: Tx)
    requires brokers != [] && raw.sender !in brokers && raw.recipient !in brokers
    ensures var one := Tx1(raw, brokers[0]);
      WithBroker(one) && WellFormed(one) && Placer(one) == raw.sender == Carrier(brokers, one)
    ensures var two := Tx2(raw, brokers[0]);
      WithBroker(two) && WellFormed(two) && Placer(two) == raw.recipient == Carrier(brokers, two)
  {
    assert brokers[0] in brokers;
  }

  /** Everything the supervisor sends with a broker: a half of a raw transaction, or a flagged one. */
  ghost predicate SentWithBroker(home: Addr -> ShardId, brokers: seq<Addr>, dataset: seq<Tx>, tx: Tx) {
    brokers != []
    && (HalfOf(tx, ToSplit(home, brokers, dataset), brokers[0])
        || (tx in ToSend(home, brokers, dataset) && (tx.sender in brokers || tx.recipient in brokers)))
  }

  lemma SentGoesWithCarrier(home: Addr -> ShardId, brokers: seq<Addr>, dataset: seq<Tx>, tx: Tx)
    requires (forall t :: t in dataset ==> Plain(t)) && SentWithBroker(home, brokers, dataset, tx)
    ensures WithBroker(tx) && WellFormed(tx) && Placer(tx) == Carrier(brokers, tx)
  {
    if HalfOf(tx, ToSplit(home, brokers, dataset), brokers[0]) {
      var raw :| raw in ToSplit(home, brokers, dataset) && (tx == Tx1(raw, brokers[0]) || tx == Tx2(raw, brokers[0]));
      SplitExactly(home, brokers, dataset, raw);
      HalfGoesWithCarrier(brokers, raw);
    } else {
      FlaggedGoesWithCarrier(home, brokers, dataset, tx);
    }
  }

  /** Migration keeps routing: a queued transaction that the supervisor sent with a broker is shipped to shard
      `k` if and only if the map moves the account it was routed by to `k`. */
  lemma BrokerTxFollowsRoute(plan: Plan, brokers: seq<Addr>, dataset: seq<Tx>, tx: Tx, k: ShardId)
    requires plan.brokers && (forall t :: t in dataset ==> Plain(t))
    requires SentWithBroker(plan.cfg.defaultHome, brokers, dataset, tx)
    ensures VerdictOf(plan, tx) == ToShard(k) <==>
      Dest(plan, if tx.sender in brokers then tx.recipient else tx.sender) == Some(k)
  {
    SentGoesWithCarrier(plan.cfg.defaultHome, brokers, dataset, tx);
  }
}
