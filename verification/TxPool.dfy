/**
 The transaction pool of a leader: a window of an array, appended to, packed from the front and
 compacted in place when transactions leave for another shard.
 */
module TxPool {
  import opened Ledger
  import opened Shards

  function Least(a: nat, b: nat): nat {
    if a < b then a else b
  }

  // ---------- The broker variant of the queue split ----------

  /** How the split treats one queued transaction: sent with the accounts, handed back to the
      supervisor because it now crosses shards, or kept. */
  datatype Fate = Sent | BecomesCross | Stays

  /** The non-broker address a queued transaction of the broker mode is executed for: its sender or
      its recipient, whichever is at home in its shard. */
  function Placer(tx: Tx): Addr {
    if tx.rawHash.None? then
      if tx.hasBroker && tx.senderIsBroker then tx.recipient else tx.sender
    else if tx.finalRecipient == tx.recipient then tx.recipient
    else tx.sender
  }

  /** One party is a broker: the transaction is a half of a split transfer, or is flagged. */
  predicate WithBroker(tx: Tx) {
    tx.rawHash.Some? || tx.hasBroker
  }

  /** A tx1, a tx2, or a transaction as the supervisor sends it. */
  predicate WellFormed(tx: Tx) {
    tx.rawHash.Some? ==> tx.finalRecipient == tx.recipient || tx.originalSender == tx.sender
  }

  /** With a broker, a transaction goes where its placer goes; without, it leaves with either account. */
  function FateOf(tx: Tx, keys: set<Addr>): Fate {
    if !WithBroker(tx) then
      if tx.sender in keys || tx.recipient in keys then BecomesCross else Stays
    else if WellFormed(tx) && Placer(tx) in keys then Sent
    else Stays
  }

  /** The transactions of the queue with the given fate, in their order. */
  function WithFate(queue: seq<Tx>, keys: set<Addr>, fate: Fate): seq<Tx> {
    if queue == [] then []
    else
      var tx := queue[|queue| - 1];
      WithFate(queue[..|queue| - 1], keys, fate) + if FateOf(tx, keys) == fate then [tx] else []
  }

  /** The first `n` transactions are split. */
  ghost predicate Divided(queue: seq<Tx>, keys: set<Addr>, n: nat, sent: seq<Tx>, kept: seq<Tx>) {
    n <= |queue| && sent == Picked(queue[..n], keys) && kept == Kept(queue[..n], keys)
  }

  lemma DividedSnoc(queue: seq<Tx>, keys: set<Addr>, n: nat, sent: seq<Tx>, kept: seq<Tx>)
    requires Divided(queue, keys, n, sent, kept) && n < |queue|
    ensures Travels(queue[n], keys) ==> Divided(queue, keys, n + 1, sent + [queue[n]], kept)
    ensures !Travels(queue[n], keys) ==> Divided(queue, keys, n + 1, sent, kept + [queue[n]])
  {
    assert queue[..n + 1][..n] == queue[..n];
    assert sent + [] == sent && kept + [] == kept;
  }

  ghost predicate Sorted3(queue: seq<Tx>, keys: set<Addr>, n: nat, sent: seq<Tx>, cross: seq<Tx>, kept: seq<Tx>) {
    n <= |queue| && sent == WithFate(queue[..n], keys, Sent) && cross == WithFate(queue[..n], keys, BecomesCross)
    && kept == WithFate(queue[..n], keys, Stays)
  }

  lemma Sorted3Snoc(queue: seq<Tx>, keys: set<Addr>, n: nat, sent: seq<Tx>, cross: seq<Tx>, kept: seq<Tx>)
    requires Sorted3(queue, keys, n, sent, cross, kept) && n < |queue|
    ensures FateOf(queue[n], keys) == Sent ==> Sorted3(queue, keys, n + 1, sent + [queue[n]], cross, kept)
    ensures FateOf(queue[n], keys) == BecomesCross ==> Sorted3(queue, keys, n + 1, sent, cross + [queue[n]], kept)
    ensures FateOf(queue[n], keys) == Stays ==> Sorted3(queue, keys, n + 1, sent, cross, kept + [queue[n]])
  {
    assert queue[..n + 1][..n] == queue[..n];
    assert sent + [] == sent && cross + [] == cross && kept + [] == kept;
  }

  /** The same, by the flags the branches set. */
  lemma Sorted3Next(queue: seq<Tx>, keys: set<Addr>, n: nat, sent: seq<Tx>, cross: seq<Tx>, kept: seq<Tx>,
                    beSend: bool, beCross: bool)
    requires Sorted3(queue, keys, n, sent, cross, kept) && n < |queue|
    requires FateOf(queue[n], keys) == if beSend then Sent else if beCross then BecomesCross else Stays
    requires !(beSend && beCross)
    ensures Sorted3(queue, keys, n + 1, if beSend then sent + [queue[n]] else sent,
      if beCross then cross + [queue[n]] else cross, if beSend || beCross then kept else kept + [queue[n]])
  {
    Sorted3Snoc(queue, keys, n, sent, cross, kept);
  }

  class TxPool {
    var buf: array<Tx>
    var lo: nat
    var hi: nat
    var relayPool: map<ShardId, seq<Tx>>

    ghost predicate Valid()
      reads this`lo, this`hi, this`buf
    {
      lo <= hi <= buf.Length
    }

    function Queue(): seq<Tx>
      reads this`lo, this`hi, this`buf, buf
      requires Valid()
    {
      buf[lo..hi]
    }

    constructor ()
      ensures Valid() && fresh(buf) && Queue() == [] && relayPool == map[]
    {
      buf, lo, hi, relayPool := new Tx[0], 0, 0, map[];
    }

    /** Appends in place, or to a larger copy when the array is full. */
    method AddTx2Pool(tx: Tx)
      requires Valid()
      modifies this`buf, this`lo, this`hi, buf
      ensures Valid() && Queue() == old(Queue()) + [tx]
      ensures buf == old(buf) || fresh(buf)
    {
      if hi == buf.Length {
        Grow();
      }
      buf[hi] := tx;
      hi := hi + 1;
    }

    method Grow()
      requires Valid()
      modifies this`buf, this`lo, this`hi
      ensures Valid() && Queue() == old(Queue()) && hi < buf.Length && fresh(buf)
    {
      var n, window, start := hi - lo, buf, lo;
      var bigger := new Tx[2 * n + 1];
      for i := 0 to n
        invariant forall j :: 0 <= j < i ==> bigger[j] == window[start + j]
      {
        bigger[i] := window[start + i];
      }
      buf, lo, hi := bigger, 0, n;
    }

    method AddTxs2Pool(txs: seq<Tx>)
      requires Valid()
      modifies this`buf, this`lo, this`hi, buf
      ensures Valid() && Queue() == old(Queue()) + txs
      ensures buf == old(buf) || fresh(buf)
    {
      for i := 0 to |txs|
        invariant Valid() && Queue() == old(Queue()) + txs[..i]
        invariant buf == old(buf) || fresh(buf)
      {
        AddTx2Pool(txs[i]);
      }
      assert txs[..|txs|] == txs;
    }

    /** Takes at most `max` transactions from the front. */
    method PackTxs(max: nat) returns (packed: seq<Tx>)
      requires Valid()
      modifies this`lo
      ensures Valid() && packed + Queue() == old(Queue()) && |packed| == Least(max, |old(Queue())|)
      ensures |packed| <= max && (|packed| == max || Queue() == [])
    {
      var n := Least(max, hi - lo);
      packed := buf[lo..lo + n];
      lo := lo + n;
    }

    /** Takes the longest prefix whose transactions, all of the given size, fit into `max` bytes. */
    method PackTxsWithBytes(max: int, size: nat) returns (packed: seq<Tx>)
      requires Valid()
      modifies this`lo
      ensures Valid() && packed + Queue() == old(Queue())
      ensures |packed| * size <= max || packed == []
      ensures Queue() != [] ==> (|packed| + 1) * size > max
    {
      var n, total := 0, 0;
      while n < hi - lo && total + size <= max
        invariant n <= hi - lo && total == n * size && (n == 0 || total <= max)
      {
        total := total + size;
        n := n + 1;
      }
      packed := buf[lo..lo + n];
      lo := lo + n;
    }

    method AddRelayTx(tx: Tx, k: ShardId)
      modifies this`relayPool
      ensures relayPool == old(relayPool)[k := (if k in old(relayPool) then old(relayPool)[k] else []) + [tx]]
    {
      if k !in relayPool {
        relayPool := relayPool[k := []];
      }
      relayPool := relayPool[k := relayPool[k] + [tx]];
    }

    method ClearRelayPool()
      modifies this`relayPool
      ensures relayPool == map[]
    {
      relayPool := map[];
    }

    /** The window while the second pointer has passed `n` transactions of the old queue: those to
        keep are at its front, and the rest is untouched. */
    ghost predicate Compacting(queue: seq<Tx>, n: nat, kept: seq<Tx>)
      reads this`lo, this`hi, this`buf, buf
    {
      lo + |queue| == hi <= buf.Length && |kept| <= n <= |queue|
      && (forall i :: 0 <= i < |kept| ==> buf[lo + i] == kept[i])
      && (forall i :: n <= i < |queue| ==> buf[lo + i] == queue[i])
    }

    /** Writes the transaction under the second pointer at the first pointer. */
    method Keep(first: nat, second: nat, ghost queue: seq<Tx>, ghost kept: seq<Tx>)
      requires Compacting(queue, second, kept) && second < |queue| && first == |kept|
      modifies buf
      ensures Compacting(queue, second + 1, kept + [queue[second]])
    {
      assert buf[lo + second] == queue[second];
      buf[lo + first] := buf[lo + second];
    }

    method KeepUnless(beRemoved: bool, first: nat, second: nat, ghost queue: seq<Tx>, ghost kept: seq<Tx>)
      returns (first': nat, ghost kept': seq<Tx>)
      requires Compacting(queue, second, kept) && second < |queue| && first == |kept|
      modifies buf
      ensures kept' == (if beRemoved then kept else kept + [queue[second]]) && first' == |kept'|
      ensures Compacting(queue, second + 1, kept')
    {
      first', kept' := first, kept;
      if !beRemoved {
        Keep(first, second, queue, kept);
        first', kept' := first + 1, kept + [queue[second]];
      } else {
        Passed(queue, second, kept);
      }
    }

    lemma Passed(queue: seq<Tx>, n: nat, kept: seq<Tx>)
      requires Compacting(queue, n, kept) && n < |queue|
      ensures buf[lo + n] == queue[n] && Compacting(queue, n + 1, kept)
    {
    }

    /** Cuts the window to what was kept. */
    method Cut(first: nat, ghost queue: seq<Tx>, ghost kept: seq<Tx>)
      requires Compacting(queue, |queue|, kept) && first == |kept|
      modifies this`hi
      ensures Valid() && Queue() == kept
    {
      hi := lo + first;
      assert Queue() == kept;
    }

    /** The two-pointer split: what travels with the accounts in `keys` is returned, the rest is
        moved to the front of the window, both in their old order. */
    method SplitFor(keys: set<Addr>) returns (sent: seq<Tx>)
      requires Valid()
      modifies this`hi, buf
      ensures Valid() && sent == Picked(old(Queue()), keys) && Queue() == Kept(old(Queue()), keys)
    {
      ghost var queue, kept := Queue(), [];
      var first, size := 0, hi - lo;
      sent := [];
      for second := 0 to size
        invariant Compacting(queue, second, kept) && first == |kept| && Divided(queue, keys, second, sent, kept)
      {
        var tx := buf[lo + second];
        DividedSnoc(queue, keys, second, sent, kept);
        Passed(queue, second, kept);
        if (tx.sender in keys && !tx.relayed) || (tx.recipient in keys && tx.relayed) {
          sent := sent + [tx];
        } else {
          Keep(first, second, queue, kept);
          first, kept := first + 1, kept + [tx];
        }
      }
      assert queue[..size] == queue;
      Cut(first, queue, kept);
    }

    /** Deals with the transaction under the second pointer. */
    method Treat(keys: set<Addr>, first: nat, second: nat, ghost queue: seq<Tx>, sent: seq<Tx>, cross: seq<Tx>,
                 ghost kept: seq<Tx>) returns (first': nat, sent': seq<Tx>, cross': seq<Tx>, ghost kept': seq<Tx>)
      requires Compacting(queue, second, kept) && second < |queue| && first == |kept|
      requires Sorted3(queue, keys, second, sent, cross, kept)
      modifies buf
      ensures Compacting(queue, second + 1, kept') && first' == |kept'|
      ensures Sorted3(queue, keys, second + 1, sent', cross', kept')
    {
      var tx := buf[lo + second];
      var beSend, beRemoved, beCross := Decide(tx, keys);
      Passed(queue, second, kept);
      Sorted3Next(queue, keys, second, sent, cross, kept, beSend, beCross);
      sent' := if beSend then sent + [tx] else sent;
      cross' := if beCross then cross + [tx] else cross;
      first', kept' := KeepUnless(beRemoved, first, second, queue, kept);
    }

    /** The broker variant: what is sent, and what is handed back because it becomes cross-shard. */
    method SplitForBroker(keys: set<Addr>) returns (sent: seq<Tx>, cross: seq<Tx>)
      requires Valid()
      modifies this`hi, buf
      ensures Valid() && Queue() == WithFate(old(Queue()), keys, Stays)
      ensures sent == WithFate(old(Queue()), keys, Sent) && cross == WithFate(old(Queue()), keys, BecomesCross)
    {
      ghost var queue, kept := Queue(), [];
      var first, size := 0, hi - lo;
      sent, cross := [], [];
      for second := 0 to size
        invariant Compacting(queue, second, kept) && first == |kept| && Sorted3(queue, keys, second, sent, cross, kept)
      {
        first, sent, cross, kept := Treat(keys, first, second, queue, sent, cross, kept);
      }
      assert queue[..size] == queue;
      Cut(first, queue, kept);
    }

    /** The branches of the broker variant for one transaction. */
    static method Decide(tx: Tx, keys: set<Addr>) returns (beSend: bool, beRemoved: bool, beCross: bool)
      ensures beSend <==> WithBroker(tx) && WellFormed(tx) && Placer(tx) in keys
      ensures beCross <==> !WithBroker(tx) && (tx.sender in keys || tx.recipient in keys)
      ensures beRemoved <==> beSend || beCross
    {
      beSend, beRemoved, beCross := false, false, false;
      var ok1, ok2 := tx.sender in keys, tx.recipient in keys;
      if tx.rawHash.None? {
        if tx.hasBroker {
          if tx.senderIsBroker {
            beSend, beRemoved := ok2, ok2;
          } else {
            beSend, beRemoved := ok1, ok1;
          }
        } else if ok1 || ok2 {
          beCross, beRemoved := true, true;
        }
      } else if tx.finalRecipient == tx.recipient {
        beSend, beRemoved := ok2, ok2;
      } else if tx.originalSender == tx.sender {
        beSend, beRemoved := ok1, ok1;
      }
    }
  }
}
