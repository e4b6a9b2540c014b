/** What a run has achieved: every injected transaction is in one place and has each phase once,
    money is conserved, and a quiet system equals the sequential reference ledger. */
module Outcome {
  import opened Ledger
  import opened Execution
  import opened Shards
  import opened Protocol
  import opened Rounds
  import opened Places
  import opened Tally
  import opened TallySteps
  import opened Settlement
  import opened Authority
  import opened Runs

  // ---------- Exactly once ----------

  lemma {:induction false} MarkedOcc(txs: seq<Tx>, x: Tx)
    requires !x.relayed && forall tx :: tx in txs ==> !tx.relayed
    ensures Occ(MarkAll(txs), Mark(x)) == Occ(txs, x)
  {
    if txs != [] {
      var init, tx := txs[..|txs| - 1], txs[|txs| - 1];
      assert tx in txs;
      MarkedOcc(init, x);
      OccSnoc(MarkAll(init), Mark(tx), Mark(x));
      assert Mark(tx) == Mark(x) ==> tx == x;
    }
  }

  /** However often a transaction was injected, that often it is: waiting for its first phase,
      between its phases (somewhere in the system, marked), or finished. Having had the first
      phase is not to be waiting for it. */
  lemma ExactlyOnce(cfg: Config, s: System, x: Tx)
    requires cfg.Valid() && Reachable(cfg, s) && !x.relayed
    ensures Pending(cfg, s, x) + Pending(cfg, s, Mark(x)) + Occ(s.hist.second, Mark(x)) == Occ(s.hist.injected, x)
    ensures Pending(cfg, s, x) + Occ(s.hist.first, x) == Occ(s.hist.injected, x)
  {
    ReachableInv(cfg, s);
    RawBalance(cfg, s, x);
    MarkedBalance(cfg, s, Mark(x));
    MarkedOcc(s.hist.first, x);
  }

  lemma MarkedBalance(cfg: Config, s: System, y: Tx)
    requires Tallied(cfg, s) && y.relayed
    ensures Pending(cfg, s, y) + Occ(s.hist.second, y) == Occ(MarkAll(s.hist.first), y)
  {
    assert Balanced(cfg, s, y);
    NoOcc(s.hist.first, y);
    NoOcc(s.hist.injected, y);
  }

  // ---------- Quiet systems ----------

  predicate Still(s: Shard) {
    s.queue == [] && !s.stage.BlockOpen? && forall i :: i in s.received ==> s.received[i].txs == []
  }

  /** No transaction is queued, in an open block, in a received parcel or in a message. */
  ghost predicate Quiet(s: System) {
    (forall sh :: sh in s.shards ==> Still(sh)) && (forall pkt :: pkt in s.net ==> TxsOf(pkt) == [])
  }

  lemma {:induction false} NoParcelOcc(received: map<ShardId, Parcel>, n: nat, x: Tx)
    requires forall i :: i in received ==> received[i].txs == []
    ensures ParcelOcc(received, received.Keys, n, x) == 0
  {
    if n > 0 {
      NoParcelOcc(received, n - 1, x);
    }
  }

  lemma {:induction false} NothingHeldStill(shards: seq<Shard>, n: nat, x: Tx)
    requires forall sh :: sh in shards ==> Still(sh)
    ensures HeldByAll(shards, n, x) == 0
  {
    if shards != [] {
      var sh := shards[|shards| - 1];
      assert sh in shards;
      NothingHeldStill(shards[..|shards| - 1], n, x);
      NoParcelOcc(sh.received, n, x);
    }
  }

  lemma NothingPending(cfg: Config, s: System, x: Tx)
    requires Quiet(s)
    ensures Pending(cfg, s, x) == 0
  {
    NothingHeldStill(s.shards, cfg.shards, x);
    CarriedNothing(s.net, x);
  }

  lemma SameMultiset(xs: seq<Tx>, ys: seq<Tx>)
    requires forall x :: Occ(xs, x) == Occ(ys, x)
    ensures multiset(xs) == multiset(ys)
  {
    forall x ensures multiset(xs)[x] == multiset(ys)[x] {
      OccIsMultiplicity(xs, x);
      OccIsMultiplicity(ys, x);
    }
  }

  lemma FlowPermutes(xs: seq<Tx>, ys: seq<Tx>, a: Addr, dir: Direction)
    requires multiset(xs) == multiset(ys)
    ensures Flow(xs, a, dir) == Flow(ys, a, dir)
  {
    FlowMonotone(xs, ys, a, dir);
    FlowMonotone(ys, xs, a, dir);
  }

  lemma {:induction false} FlowMarkAll(txs: seq<Tx>, a: Addr, dir: Direction)
    ensures Flow(MarkAll(txs), a, dir) == Flow(txs, a, dir)
  {
    if txs != [] {
      var init := txs[..|txs| - 1];
      FlowMarkAll(init, a, dir);
      FlowSnoc(MarkAll(init), Mark(txs[|txs| - 1]), a, dir);
    }
  }

  /** In a quiet system everything injected had both phases, once. */
  lemma AllExecuted(cfg: Config, s: System)
    requires Tallied(cfg, s) && Quiet(s)
    ensures multiset(s.hist.first) == multiset(s.hist.injected)
    ensures multiset(s.hist.second) == multiset(MarkAll(s.hist.first))
  {
    forall x
      ensures Occ(s.hist.first, x) == Occ(s.hist.injected, x)
      ensures Occ(s.hist.second, x) == Occ(MarkAll(s.hist.first), x)
    {
      NothingPending(cfg, s, x);
      if x.relayed {
        MarkedBalance(cfg, s, x);
        NoOcc(s.hist.first, x);
        NoOcc(s.hist.injected, x);
      } else {
        RawBalance(cfg, s, x);
        NoOcc(s.hist.second, x);
        NoOcc(MarkAll(s.hist.first), x);
      }
    }
    SameMultiset(s.hist.first, s.hist.injected);
    SameMultiset(s.hist.second, MarkAll(s.hist.first));
  }

  lemma FundedPermutes(xs: seq<Tx>, ys: seq<Tx>)
    requires multiset(xs) == multiset(ys) && Funded(xs)
    ensures Funded(ys)
  {
    forall a ensures Flow(ys, a, Outgoing) <= INIT_BALANCE {
      FlowPermutes(xs, ys, a, Outgoing);
    }
  }

  lemma LedgerIsReference(cfg: Config, s: System, dataset: seq<Tx>, a: Addr)
    requires Tallied(cfg, s) && Settled(s.hist) && Quiet(s)
    requires multiset(dataset) == multiset(s.hist.injected) && Funded(dataset)
    ensures Balance(s.hist.ledger, a) == RefBalance(Reference(dataset), a)
  {
    var h := s.hist;
    AllExecuted(cfg, s);
    FundedPermutes(dataset, h.injected);
    assert Explained(h.ledger, h.first, h.second);
    FlowPermutes(h.first, dataset, a, Outgoing);
    FlowPermutes(h.second, MarkAll(h.first), a, Incoming);
    FlowMarkAll(h.first, a, Incoming);
    FlowPermutes(h.first, dataset, a, Incoming);
    ReferenceBalances(dataset, a);
  }

  /** The single-ledger theorem. In a quiet system the one place that has an account has the
      balance of the sequential ledger, whatever order the dataset lists the transactions in. */
  lemma SingleLedger(cfg: Config, s: System, dataset: seq<Tx>, a: Addr)
    requires cfg.Valid() && Reachable(cfg, s) && Quiet(s)
    requires multiset(dataset) == multiset(s.hist.injected) && Funded(dataset)
    ensures PlaceSum(cfg, s, a, OfPlaces) == 1
    ensures PlaceSum(cfg, s, a, OfFunds) == RefBalance(Reference(dataset), a)
  {
    ReachableInv(cfg, s);
    OnePlace(cfg, s, a, OfPlaces);
    OnePlace(cfg, s, a, OfFunds);
    LedgerIsReference(cfg, s, dataset, a);
  }

  /** Once every shard has finished every round, that place is the shard the supervisor's map says. */
  lemma HomeHasReferenceBalance(cfg: Config, s: System, dataset: seq<Tx>, a: Addr)
    requires cfg.Valid() && Reachable(cfg, s) && Quiet(s)
    requires multiset(dataset) == multiset(s.hist.injected) && Funded(dataset)
    requires forall sh :: sh in s.shards ==> sh.round == |s.sup.issued|
    ensures var home := HomeOf(cfg, s.sup.modifiedMap, a);
      home < |s.shards| && Balance(s.shards[home].accounts, a) == RefBalance(Reference(dataset), a)
  {
    ReachableInv(cfg, s);
    LedgerIsReference(cfg, s, dataset, a);
    HomeHolds(cfg, s, a);
  }

  /** A shard that finished every round holds the accounts the supervisor's map gives it. */
  lemma HomeHolds(cfg: Config, s: System, a: Addr)
    requires InRounds(cfg, s) && Placed(cfg, s) && forall sh :: sh in s.shards ==> sh.round == |s.sup.issued|
    ensures HomeOf(cfg, s.sup.modifiedMap, a) < |s.shards|
    ensures Same(s.shards[HomeOf(cfg, s.sup.modifiedMap, a)].accounts, s.hist.ledger, a)
  {
    var home := HomeOf(cfg, s.sup.modifiedMap, a);
    OverlayInRange(cfg, s.sup.issued, |s.sup.issued|);
    assert s.shards[home].round == |s.sup.issued| by {
      assert s.shards[home] in s.shards;
    }
    KnownShard(cfg, s.sup.issued, s.shards, home);
    PlacedShard(cfg, s, home);
    HeldAtHome(cfg, s.sup.issued, s.hist.ledger, s.shards[home], home, a);
  }

  lemma HeldAtHome(cfg: Config, issued: seq<PartitionMap>, ledger: Accounts, sh: Shard, k: ShardId, a: Addr)
    requires ShardPlaced(cfg, issued, ledger, sh, k) && sh.round == Shipped(sh) && HomeAt(cfg, issued, sh.round, a) == k
    ensures Same(sh.accounts, ledger, a)
  {
    assert Holds(cfg, issued, sh, k, a);
  }

  // ---------- Conservation ----------

  function ParcelTxs(received: map<ShardId, Parcel>, n: nat): seq<Tx> {
    if n == 0 then [] else ParcelTxs(received, n - 1) + if n - 1 in received then received[n - 1].txs else []
  }

  function HeldTxs(s: Shard, n: nat): seq<Tx> {
    s.queue + (if s.stage.BlockOpen? then s.stage.body else [])
      + (if s.stage.PartitionOpen? then [] else ParcelTxs(s.received, n))
  }

  function AllHeldTxs(shards: seq<Shard>, n: nat): seq<Tx> {
    if shards == [] then [] else AllHeldTxs(shards[..|shards| - 1], n) + HeldTxs(shards[|shards| - 1], n)
  }

  function CarriedTxs(net: seq<Packet>): seq<Tx> {
    if net == [] then [] else CarriedTxs(net[..|net| - 1]) + TxsOf(net[|net| - 1])
  }

  /** Everything pending anywhere, as one list. */
  function PendingTxs(cfg: Config, s: System): seq<Tx> {
    AllHeldTxs(s.shards, cfg.shards) + CarriedTxs(s.net)
  }

  lemma {:induction false} ParcelTxsOcc(received: map<ShardId, Parcel>, n: nat, x: Tx)
    ensures Occ(ParcelTxs(received, n), x) == ParcelOcc(received, received.Keys, n, x)
  {
    if n > 0 {
      ParcelTxsOcc(received, n - 1, x);
      OccConcat(ParcelTxs(received, n - 1), if n - 1 in received then received[n - 1].txs else [], x);
    }
  }

  lemma HeldTxsOcc(s: Shard, n: nat, x: Tx)
    ensures Occ(HeldTxs(s, n), x) == Held(s, n, x)
  {
    var body := if s.stage.BlockOpen? then s.stage.body else [];
    var parcels := if s.stage.PartitionOpen? then [] else ParcelTxs(s.received, n);
    OccConcat(s.queue + body, parcels, x);
    OccConcat(s.queue, body, x);
    ParcelTxsOcc(s.received, n, x);
  }

  lemma {:induction false} AllHeldTxsOcc(shards: seq<Shard>, n: nat, x: Tx)
    ensures Occ(AllHeldTxs(shards, n), x) == HeldByAll(shards, n, x)
  {
    if shards != [] {
      AllHeldTxsOcc(shards[..|shards| - 1], n, x);
      HeldTxsOcc(shards[|shards| - 1], n, x);
      OccConcat(AllHeldTxs(shards[..|shards| - 1], n), HeldTxs(shards[|shards| - 1], n), x);
    }
  }

  lemma {:induction false} CarriedTxsOcc(net: seq<Packet>, x: Tx)
    ensures Occ(CarriedTxs(net), x) == Carried(net, x)
  {
    if net != [] {
      CarriedTxsOcc(net[..|net| - 1], x);
      OccConcat(CarriedTxs(net[..|net| - 1]), TxsOf(net[|net| - 1]), x);
    }
  }

  lemma PendingTxsOcc(cfg: Config, s: System, x: Tx)
    ensures Occ(PendingTxs(cfg, s), x) == Pending(cfg, s, x)
  {
    OccConcat(AllHeldTxs(s.shards, cfg.shards), CarriedTxs(s.net), x);
    AllHeldTxsOcc(s.shards, cfg.shards, x);
    CarriedTxsOcc(s.net, x);
  }

  /** The transactions whose sender has paid and whose recipient has not been credited. */
  function Debited(txs: seq<Tx>): seq<Tx> {
    if txs == [] then []
    else
      var tx := txs[|txs| - 1];
      Debited(txs[..|txs| - 1]) + if tx.relayed then [tx] else []
  }

  lemma {:induction false} DebitedOcc(txs: seq<Tx>, x: Tx)
    ensures Occ(Debited(txs), x) == if x.relayed then Occ(txs, x) else 0
  {
    if txs != [] {
      var init, tx := txs[..|txs| - 1], txs[|txs| - 1];
      DebitedOcc(init, x);
      if tx.relayed {
        OccSnoc(Debited(init), tx, x);
      } else {
        assert Debited(init) + [] == Debited(init);
      }
    }
  }

  /** Paid out so far: credited already, or on its way. */
  lemma PaidOut(cfg: Config, s: System)
    requires Tallied(cfg, s)
    ensures multiset(Debited(PendingTxs(cfg, s)) + s.hist.second) == multiset(MarkAll(s.hist.first))
  {
    var way := Debited(PendingTxs(cfg, s));
    forall x ensures Occ(way + s.hist.second, x) == Occ(MarkAll(s.hist.first), x) {
      OccConcat(way, s.hist.second, x);
      DebitedOcc(PendingTxs(cfg, s), x);
      PendingTxsOcc(cfg, s, x);
      if x.relayed {
        MarkedBalance(cfg, s, x);
      } else {
        NoOcc(s.hist.second, x);
        NoOcc(MarkAll(s.hist.first), x);
      }
    }
    SameMultiset(way + s.hist.second, MarkAll(s.hist.first));
  }

  function FlowSum(txs: seq<Tx>, addrs: seq<Addr>, dir: Direction): nat {
    if addrs == [] then 0 else FlowSum(txs, addrs[..|addrs| - 1], dir) + Flow(txs, addrs[|addrs| - 1], dir)
  }

  ghost predicate Distinct(addrs: seq<Addr>) {
    forall i, j :: 0 <= i < j < |addrs| ==> addrs[i] != addrs[j]
  }

  lemma {:induction false} FlowSumStep(txs: seq<Tx>, addrs: seq<Addr>, dir: Direction)
    requires txs != [] && Distinct(addrs)
    ensures var tx := txs[|txs| - 1];
      FlowSum(txs, addrs, dir)
        == FlowSum(txs[..|txs| - 1], addrs, dir) + if Party(tx, dir) in addrs then tx.value else 0
  {
    if addrs != [] {
      FlowSumStep(txs, addrs[..|addrs| - 1], dir);
      assert addrs == addrs[..|addrs| - 1] + [addrs[|addrs| - 1]];
    }
  }

  lemma {:induction false} FlowSumNothing(addrs: seq<Addr>, dir: Direction)
    ensures FlowSum([], addrs, dir) == 0
  {
    if addrs != [] {
      FlowSumNothing(addrs[..|addrs| - 1], dir);
    }
  }

  lemma {:induction false} FlowSumIsTotal(txs: seq<Tx>, addrs: seq<Addr>, dir: Direction)
    requires Distinct(addrs) && forall tx :: tx in txs ==> Party(tx, dir) in addrs
    ensures FlowSum(txs, addrs, dir) == Total(txs)
  {
    if txs == [] {
      FlowSumNothing(addrs, dir);
    } else {
      assert txs[|txs| - 1] in txs;
      FlowSumIsTotal(txs[..|txs| - 1], addrs, dir);
      FlowSumStep(txs, addrs, dir);
    }
  }

  /** The balances of the listed accounts, each taken from wherever the account is. */
  function Funds(cfg: Config, s: System, addrs: seq<Addr>): nat {
    if addrs == [] then 0
    else Funds(cfg, s, addrs[..|addrs| - 1]) + PlaceSum(cfg, s, addrs[|addrs| - 1], OfFunds)
  }

  lemma OneAccountConserved(cfg: Config, s: System, a: Addr)
    requires Inv(cfg, s) && !s.hist.starved
    ensures PlaceSum(cfg, s, a, OfFunds) + Flow(s.hist.first, a, Outgoing)
          + Flow(Debited(PendingTxs(cfg, s)), a, Incoming)
         == INIT_BALANCE + Flow(s.hist.first, a, Incoming)
  {
    var h, way := s.hist, Debited(PendingTxs(cfg, s));
    OnePlace(cfg, s, a, OfFunds);
    assert Explained(h.ledger, h.first, h.second);
    PaidOut(cfg, s);
    FlowPermutes(way + h.second, MarkAll(h.first), a, Incoming);
    FlowConcat(way, h.second, a, Incoming);
    FlowMarkAll(h.first, a, Incoming);
  }

  lemma {:induction false} AccountsConserved(cfg: Config, s: System, addrs: seq<Addr>)
    requires Inv(cfg, s) && !s.hist.starved
    ensures Funds(cfg, s, addrs) + FlowSum(s.hist.first, addrs, Outgoing)
          + FlowSum(Debited(PendingTxs(cfg, s)), addrs, Incoming)
         == |addrs| * INIT_BALANCE + FlowSum(s.hist.first, addrs, Incoming)
  {
    if addrs != [] {
      AccountsConserved(cfg, s, addrs[..|addrs| - 1]);
      OneAccountConserved(cfg, s, addrs[|addrs| - 1]);
    }
  }

  lemma {:induction false} DebitedIn(txs: seq<Tx>, tx: Tx)
    requires tx in Debited(txs)
    ensures tx in txs && tx.relayed
  {
    if tx in Debited(txs[..|txs| - 1]) {
      DebitedIn(txs[..|txs| - 1], tx);
    }
  }

  lemma OccIn(txs: seq<Tx>, x: Tx)
    requires Occ(txs, x) > 0
    ensures x in txs
  {
    if x !in txs {
      NoOcc(txs, x);
    }
  }

  /** Only injected transactions have had their first phase. */
  lemma FirstIsInjected(cfg: Config, s: System, tx: Tx)
    requires Tallied(cfg, s) && tx in s.hist.first
    ensures tx in s.hist.injected
  {
    SomeOcc(s.hist.first, tx);
    RawBalance(cfg, s, tx);
    OccIn(s.hist.injected, tx);
  }

  /** What is on its way had its first phase. */
  lemma OnWayHadFirst(cfg: Config, s: System, tx: Tx)
    requires Tallied(cfg, s) && tx in Debited(PendingTxs(cfg, s))
    ensures tx in MarkAll(s.hist.first)
  {
    SomeOcc(Debited(PendingTxs(cfg, s)), tx);
    DebitedIn(PendingTxs(cfg, s), tx);
    DebitedOcc(PendingTxs(cfg, s), tx);
    PendingTxsOcc(cfg, s, tx);
    MarkedBalance(cfg, s, tx);
    OccIn(MarkAll(s.hist.first), tx);
  }

  /** Conservation at every step: balances wherever they are, plus what was debited and not yet
      credited, is the initial endowment of the accounts involved. */
  lemma Conservation(cfg: Config, s: System, addrs: seq<Addr>)
    requires cfg.Valid() && Reachable(cfg, s) && !s.hist.starved
    requires Distinct(addrs)
    requires forall tx :: tx in s.hist.injected ==> tx.sender in addrs && tx.recipient in addrs
    ensures Funds(cfg, s, addrs) + Total(Debited(PendingTxs(cfg, s))) == |addrs| * INIT_BALANCE
  {
    ReachableInv(cfg, s);
    var way := Debited(PendingTxs(cfg, s));
    AccountsConserved(cfg, s, addrs);
    forall tx | tx in s.hist.first || tx in way ensures tx.sender in addrs && tx.recipient in addrs {
      if tx in s.hist.first {
        FirstIsInjected(cfg, s, tx);
      } else {
        OnWayHadFirst(cfg, s, tx);
        var j :| 0 <= j < |s.hist.first| && MarkAll(s.hist.first)[j] == tx;
        FirstIsInjected(cfg, s, s.hist.first[j]);
      }
    }
    FlowSumIsTotal(s.hist.first, addrs, Outgoing);
    FlowSumIsTotal(s.hist.first, addrs, Incoming);
    FlowSumIsTotal(way, addrs, Incoming);
  }

  /** No balance check ever fails when every account can pay all it sends. */
  lemma FundedNeverStarves(cfg: Config, s: System)
    requires cfg.Valid() && Reachable(cfg, s) && Funded(s.hist.injected)
    ensures !s.hist.starved
  {
    ReachableInv(cfg, s);
  }
}
