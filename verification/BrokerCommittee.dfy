/** The supervisor's committee in broker mode: it splits cross-shard transactions and turns
    confirmations of their first half into their second. */
module BrokerCommittee {
  import opened Basics
  import opened Ledger
  import opened Brokers

  /** A transaction that has to be split: it crosses shards and neither account is a broker. */
  predicate NeedsSplit(home: Addr -> ShardId, brokers: seq<Addr>, tx: Tx) {
    home(tx.sender) != home(tx.recipient) && tx.sender !in brokers && tx.recipient !in brokers
  }

  function ToSplit(home: Addr -> ShardId, brokers: seq<Addr>, txs: seq<Tx>): seq<Tx> {
    if txs == [] then []
    else
      var tx := txs[|txs| - 1];
      ToSplit(home, brokers, txs[..|txs| - 1]) + if NeedsSplit(home, brokers, tx) then [tx] else []
  }

  /** A transaction that is sent as it is, marked when a broker takes part. */
  function Flagged(brokers: seq<Addr>, tx: Tx): Tx {
    if tx.sender in brokers || tx.recipient in brokers then
      tx.(hasBroker := true, senderIsBroker := tx.sender in brokers)
    else tx
  }

  function ToSend(home: Addr -> ShardId, brokers: seq<Addr>, txs: seq<Tx>): seq<Tx> {
    if txs == [] then []
    else
      var tx := txs[|txs| - 1];
      ToSend(home, brokers, txs[..|txs| - 1]) + if NeedsSplit(home, brokers, tx) then [] else [Flagged(brokers, tx)]
  }

  lemma DealSnoc(home: Addr -> ShardId, brokers: seq<Addr>, txs: seq<Tx>, n: nat)
    requires n < |txs|
    ensures ToSplit(home, brokers, txs[..n + 1])
         == ToSplit(home, brokers, txs[..n]) + if NeedsSplit(home, brokers, txs[n]) then [txs[n]] else []
    ensures ToSend(home, brokers, txs[..n + 1])
         == ToSend(home, brokers, txs[..n])
            + if NeedsSplit(home, brokers, txs[n]) then [] else [Flagged(brokers, txs[n])]
  {
    assert txs[..n + 1][..n] == txs[..n];
  }

  lemma RegisterSnoc(d: Desk, raws: seq<Tx>, broker: Addr, n: nat)
    requires n < |raws|
    ensures var e := Register(d, raws[..n]);
      Register(d, raws[..n + 1]) == e.(raws := e.raws + {raws[n]}, pool1 := e.pool1[Tx1Hash(raws[n].hash) := raws[n]])
    ensures AllTx1(raws[..n + 1], broker) == AllTx1(raws[..n], broker) + [Tx1(raws[n], broker)]
    ensures AllTx2(raws[..n + 1], broker) == AllTx2(raws[..n], broker) + [Tx2(raws[n], broker)]
    ensures var e := AwaitTx2(d, raws[..n]);
      AwaitTx2(d, raws[..n + 1]) == e.(pool2 := e.pool2[Tx2Hash(raws[n].hash) := raws[n]])
  {
    assert raws[..n + 1][..n] == raws[..n];
  }

  lemma ConfirmSnoc(d: Desk, confirmed: seq<Tx>, n: nat)
    requires n < |confirmed|
    ensures var e := Confirm1(d, confirmed[..n]);
      Confirm1(d, confirmed[..n + 1])
        == if confirmed[n] in e.raws then Note(e, confirmed[n], Tx1Hash(confirmed[n].hash)) else e
    ensures Confirm2(d, confirmed[..n + 1])
      == Note(Confirm2(d, confirmed[..n]), confirmed[n], Tx2Hash(confirmed[n].hash))
    ensures Registered(d.raws, confirmed[..n + 1])
         == Registered(d.raws, confirmed[..n]) + if confirmed[n] in d.raws then [confirmed[n]] else []
  {
    assert confirmed[..n + 1][..n] == confirmed[..n];
  }

  lemma FoundSnoc(pool: map<nat, Tx>, txs: seq<Tx>, n: nat)
    requires n < |txs|
    ensures Found(pool, txs[..n + 1]) == Found(pool, txs[..n]) + if txs[n].hash in pool then [pool[txs[n].hash]] else []
  {
    assert txs[..n + 1][..n] == txs[..n];
  }

  /** The second halves sent are those of the confirmed raw transactions that were registered. */
  lemma {:induction false} HalvesOfRegistered(raws: set<Tx>, confirmed: seq<Tx>, broker: Addr)
    ensures forall raw :: raw in confirmed && raw in raws ==>
      Tx2(raw, broker) in AllTx2(Registered(raws, confirmed), broker)
    ensures forall tx :: tx in AllTx2(Registered(raws, confirmed), broker) ==>
      exists raw :: raw in confirmed && raw in raws && tx == Tx2(raw, broker)
  {
    if confirmed != [] {
      var init, last := confirmed[..|confirmed| - 1], confirmed[|confirmed| - 1];
      assert confirmed == init + [last];
      HalvesOfRegistered(raws, init, broker);
      if last in raws {
        AllTx2Last(Registered(raws, init), last, broker);
      } else {
        assert Registered(raws, init) + [] == Registered(raws, init);
      }
    }
  }

  lemma AllTx2Last(raws: seq<Tx>, last: Tx, broker: Addr)
    ensures AllTx2(raws + [last], broker) == AllTx2(raws, broker) + [Tx2(last, broker)]
  {
    assert (raws + [last])[..|raws + [last]| - 1] == raws;
  }

  /** Nothing is recorded for raw transactions that were never registered. */
  lemma {:induction false} NoneRegistered(d: Desk, confirmed: seq<Tx>)
    ensures Confirm1(d, confirmed).raws == d.raws
    ensures (forall raw :: raw in confirmed ==> raw !in d.raws) ==> Confirm1(d, confirmed) == d
  {
    if confirmed != [] {
      var init, last := confirmed[..|confirmed| - 1], confirmed[|confirmed| - 1];
      assert confirmed == init + [last];
      NoneRegistered(d, init);
    }
  }

  class BrokerCommittee {
    const home: Addr -> ShardId
    const brokers: seq<Addr>
    var brokerRawMegs: set<Tx>
    var confirm1Pool: map<nat, Tx>
    var confirm2Pool: map<nat, Tx>
    var rawTx2BrokerTx: map<nat, seq<nat>>

    function Value(): Desk
      reads this
    {
      Desk(brokerRawMegs, confirm1Pool, confirm2Pool, rawTx2BrokerTx)
    }

    constructor (h: Addr -> ShardId, addresses: seq<Addr>)
      ensures Value() == FRESH_WORLD.desk && home == h && brokers == addresses
    {
      home, brokers := h, addresses;
      brokerRawMegs, confirm1Pool, confirm2Pool, rawTx2BrokerTx := {}, map[], map[], map[];
    }

    method IsBroker(address: Addr) returns (found: bool)
      ensures found <==> address in brokers
    {
      for i := 0 to |brokers|
        invariant address !in brokers[..i]
      {
        if brokers[i] == address {
          return true;
        }
      }
      found := false;
    }

    /** Splits what crosses shards and sends the rest as it is. */
    method DealTxByBroker(txs: seq<Tx>) returns (itxs: seq<Tx>, tx1s: seq<Tx>)
      requires brokers != []
      modifies this`brokerRawMegs, this`confirm1Pool
      ensures var raws := ToSplit(home, brokers, txs);
        Value() == Register(old(Value()), raws) && tx1s == AllTx1(raws, brokers[0])
      ensures itxs == ToSend(home, brokers, txs)
    {
      itxs := [];
      var raws: seq<Tx> := [];
      for i := 0 to |txs|
        invariant Value() == old(Value())
        invariant raws == ToSplit(home, brokers, txs[..i]) && itxs == ToSend(home, brokers, txs[..i])
      {
        var tx := txs[i];
        DealSnoc(home, brokers, txs, i);
        var senderIsBroker := IsBroker(tx.sender);
        var recipientIsBroker := IsBroker(tx.recipient);
        if home(tx.recipient) != home(tx.sender) && !recipientIsBroker && !senderIsBroker {
          raws := raws + [tx];
        } else {
          if recipientIsBroker || senderIsBroker {
            tx := tx.(hasBroker := true, senderIsBroker := senderIsBroker);
          }
          itxs := itxs + [tx];
        }
      }
      assert txs[..|txs|] == txs;
      tx1s := HandleBrokerRawMag(raws);
    }

    /** Keeps the raw messages, and creates and sends their first halves. */
    method HandleBrokerRawMag(raws: seq<Tx>) returns (tx1s: seq<Tx>)
      requires brokers != []
      modifies this`brokerRawMegs, this`confirm1Pool
      ensures Value() == Register(old(Value()), raws) && tx1s == AllTx1(raws, brokers[0])
      ensures |tx1s| == |raws| && forall i :: 0 <= i < |raws| ==>
        tx1s[i].sender == raws[i].sender && tx1s[i].recipient == brokers[0] && tx1s[i].value == raws[i].value
        && tx1s[i].originalSender == raws[i].sender && tx1s[i].finalRecipient == raws[i].recipient
        && tx1s[i].rawHash == Some(raws[i].hash) && !tx1s[i].hasBroker && !tx1s[i].relayed
    {
      tx1s := [];
      ghost var before := Value();
      for i := 0 to |raws|
        invariant Value() == Register(before, raws[..i]) && tx1s == AllTx1(raws[..i], brokers[0])
        invariant |tx1s| == i && forall j :: 0 <= j < i ==> tx1s[j] == Tx1(raws[j], brokers[0])
      {
        RegisterSnoc(before, raws, brokers[0], i);
        brokerRawMegs := brokerRawMegs + {raws[i]};
        var tx1 := Tx1(raws[i], brokers[0]);
        tx1s := tx1s + [tx1];
        confirm1Pool := confirm1Pool[tx1.hash := raws[i]];
      }
      assert raws[..|raws|] == raws;
    }

    /** Creates and sends the second halves. */
    method HandleBrokerType2Mes(raws: seq<Tx>) returns (tx2s: seq<Tx>)
      requires brokers != []
      modifies this`confirm2Pool
      ensures Value() == AwaitTx2(old(Value()), raws) && tx2s == AllTx2(raws, brokers[0])
      ensures |tx2s| == |raws| && forall i :: 0 <= i < |raws| ==>
        tx2s[i].sender == brokers[0] && tx2s[i].recipient == raws[i].recipient && tx2s[i].value == raws[i].value
        && tx2s[i].originalSender == raws[i].sender && tx2s[i].finalRecipient == raws[i].recipient
        && tx2s[i].rawHash == Some(raws[i].hash) && !tx2s[i].hasBroker && !tx2s[i].relayed
    {
      tx2s := [];
      ghost var before := Value();
      for i := 0 to |raws|
        invariant Value() == AwaitTx2(before, raws[..i]) && tx2s == AllTx2(raws[..i], brokers[0])
        invariant |tx2s| == i && forall j :: 0 <= j < i ==> tx2s[j] == Tx2(raws[j], brokers[0])
      {
        RegisterSnoc(before, raws, brokers[0], i);
        var tx2 := Tx2(raws[i], brokers[0]);
        tx2s := tx2s + [tx2];
        confirm2Pool := confirm2Pool[tx2.hash := raws[i]];
      }
      assert raws[..|raws|] == raws;
    }

    method Append(raw: Tx, half: nat)
      modifies this`rawTx2BrokerTx
      ensures Value() == Note(old(Value()), raw, half)
    {
      var entry := if raw.hash in rawTx2BrokerTx then rawTx2BrokerTx[raw.hash] else [];
      rawTx2BrokerTx := rawTx2BrokerTx[raw.hash := entry + [half]];
    }

    method HandleTx1ConfirmMag(confirmed: seq<Tx>) returns (tx2s: seq<Tx>)
      requires brokers != []
      modifies this`rawTx2BrokerTx, this`confirm2Pool
      ensures var raws := Registered(old(Value()).raws, confirmed);
        Value() == AwaitTx2(Confirm1(old(Value()), confirmed), raws) && tx2s == AllTx2(raws, brokers[0])
      ensures forall raw :: raw in confirmed && raw in old(brokerRawMegs) ==> Tx2(raw, brokers[0]) in tx2s
      ensures forall tx :: tx in tx2s ==>
        exists raw :: raw in confirmed && raw in old(brokerRawMegs) && tx == Tx2(raw, brokers[0])
      ensures (forall raw :: raw in confirmed ==> raw !in old(brokerRawMegs)) ==> rawTx2BrokerTx == old(rawTx2BrokerTx)
    {
      var raws: seq<Tx> := [];
      ghost var before := Value();
      for i := 0 to |confirmed|
        invariant Value() == Confirm1(before, confirmed[..i]) && raws == Registered(before.raws, confirmed[..i])
        invariant brokerRawMegs == before.raws
      {
        ConfirmSnoc(before, confirmed, i);
        if confirmed[i] in brokerRawMegs {
          Append(confirmed[i], Tx1Hash(confirmed[i].hash));
          raws := raws + [confirmed[i]];
        }
      }
      assert confirmed[..|confirmed|] == confirmed;
      HalvesOfRegistered(before.raws, confirmed, brokers[0]);
      NoneRegistered(before, confirmed);
      tx2s := HandleBrokerType2Mes(raws);
    }

    /** Records the confirmed second halves. */
    method HandleTx2ConfirmMag(confirmed: seq<Tx>)
      modifies this`rawTx2BrokerTx
      ensures Value() == Confirm2(old(Value()), confirmed)
    {
      ghost var before := Value();
      for i := 0 to |confirmed|
        invariant Value() == Confirm2(before, confirmed[..i])
      {
        ConfirmSnoc(before, confirmed, i);
        Append(confirmed[i], Tx2Hash(confirmed[i].hash));
      }
      assert confirmed[..|confirmed|] == confirmed;
    }

    /** A report of committed broker transactions. */
    method CreateConfirm(txs: seq<Tx>) returns (tx2s: seq<Tx>)
      requires brokers != []
      modifies this
      ensures Value() == Report(old(Value()), txs)
      ensures tx2s == AllTx2(Registered(old(Value()).raws, Found(old(Value()).pool1, txs)), brokers[0])
    {
      var confirm1s: seq<Tx>, confirm2s: seq<Tx> := [], [];
      for i := 0 to |txs|
        invariant confirm1s == Found(confirm1Pool, txs[..i]) && confirm2s == Found(confirm2Pool, txs[..i])
        invariant Value() == old(Value())
      {
        FoundSnoc(confirm1Pool, txs, i);
        FoundSnoc(confirm2Pool, txs, i);
        if txs[i].hash in confirm1Pool {
          confirm1s := confirm1s + [confirm1Pool[txs[i].hash]];
        }
        if txs[i].hash in confirm2Pool {
          confirm2s := confirm2s + [confirm2Pool[txs[i].hash]];
        }
      }
      assert txs[..|txs|] == txs;
      tx2s := [];
      if |confirm1s| != 0 {
        tx2s := HandleTx1ConfirmMag(confirm1s);
      }
      if |confirm2s| != 0 {
        HandleTx2ConfirmMag(confirm2s);
      }
    }
  }
}
