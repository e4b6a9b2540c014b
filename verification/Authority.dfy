/** Every account is in exactly one place: at the one shard responsible for it, or in the one
    parcel that takes it to its next home; and that place has the current balance. */
module Authority {
  import opened Ledger
  import opened Shards
  import opened Protocol
  import opened Rounds
  import opened Places

  /** What is added up over the places of an account: one per place, or the balance there. */
  datatype Measure = OfPlaces | OfFunds

  function At(m: Measure, acc: Accounts, a: Addr): nat {
    if m == OfPlaces then 1 else Balance(acc, a)
  }

  /** Over the shards below `n` that hold `a`. */
  function HeldSum(cfg: Config, issued: seq<PartitionMap>, shards: seq<Shard>, a: Addr, m: Measure, n: nat): nat
    requires n <= |shards|
  {
    if n == 0 then 0
    else
      HeldSum(cfg, issued, shards, a, m, n - 1)
        + if InStep(issued, shards, n - 1) && Holds(cfg, issued, shards[n - 1], n - 1, a)
          then At(m, shards[n - 1].accounts, a) else 0
  }

  predicate InStep(issued: seq<PartitionMap>, shards: seq<Shard>, k: nat)
    requires k < |shards|
  {
    Shipped(shards[k]) <= |issued|
  }

  predicate Carries(pkt: Packet, a: Addr) {
    pkt.Shipment? && a in pkt.parcel.accounts
  }

  /** Over the parcels in flight that carry `a`. */
  function FlyingSum(net: seq<Packet>, a: Addr, m: Measure): nat {
    if net == [] then 0
    else
      var pkt := net[|net| - 1];
      FlyingSum(net[..|net| - 1], a, m) + if Carries(pkt, a) then At(m, pkt.parcel.accounts, a) else 0
  }

  predicate Keeps(s: Shard, i: ShardId, a: Addr) {
    i in s.received && a in s.received[i].accounts
  }

  /** Over the parcels that one shard received from senders below `n` and has not merged for good. */
  function KeptSum(s: Shard, a: Addr, m: Measure, n: nat): nat {
    if n == 0 then 0
    else KeptSum(s, a, m, n - 1) + if Keeps(s, n - 1, a) then At(m, s.received[n - 1].accounts, a) else 0
  }

  function ReceivedSum(shards: seq<Shard>, a: Addr, m: Measure, senders: nat): nat {
    if shards == [] then 0
    else ReceivedSum(shards[..|shards| - 1], a, m, senders) + KeptSum(shards[|shards| - 1], a, m, senders)
  }

  function PlaceSum(cfg: Config, s: System, a: Addr, m: Measure): nat {
    HeldSum(cfg, s.sup.issued, s.shards, a, m, |s.shards|)
      + FlyingSum(s.net, a, m) + ReceivedSum(s.shards, a, m, |s.shards|)
  }

  // ---------- Sums with one addend ----------

  lemma {:induction false} HeldOnce(cfg: Config, issued: seq<PartitionMap>, shards: seq<Shard>, a: Addr, m: Measure,
                                    n: nat, h: int, unit: nat)
    requires n <= |shards|
    requires forall k: nat :: k < n ==> HeldBy(cfg, issued, shards, k, a, m, h, unit)
    ensures HeldSum(cfg, issued, shards, a, m, n) == if 0 <= h < n then unit else 0
  {
    if n > 0 {
      HeldOnce(cfg, issued, shards, a, m, n - 1, h, unit);
      assert HeldBy(cfg, issued, shards, n - 1, a, m, h, unit);
    }
  }

  predicate HeldBy(cfg: Config, issued: seq<PartitionMap>, shards: seq<Shard>, k: nat, a: Addr, m: Measure, h: int,
      unit: nat)
    requires k < |shards|
  {
    InStep(issued, shards, k)
    && (Holds(cfg, issued, shards[k], k, a) <==> k == h)
    && (k == h ==> At(m, shards[k].accounts, a) == unit)
  }

  lemma {:induction false} FlyingTagged(net: seq<Packet>, a: Addr, m: Measure, tag: Tag, unit: nat)
    requires forall pkt :: pkt in net ==> (Carries(pkt, a) <==> TagOf(pkt) == tag)
    requires forall pkt :: pkt in net && Carries(pkt, a) ==> At(m, pkt.parcel.accounts, a) == unit
    requires Count(net, tag) <= 1
    ensures FlyingSum(net, a, m) == if Count(net, tag) == 1 then unit else 0
  {
    if net != [] {
      assert net[|net| - 1] in net;
      FlyingTagged(net[..|net| - 1], a, m, tag, unit);
    }
  }

  lemma {:induction false} FlyingNone(net: seq<Packet>, a: Addr, m: Measure)
    requires forall pkt :: pkt in net ==> !Carries(pkt, a)
    ensures FlyingSum(net, a, m) == 0
  {
    if net != [] {
      assert net[|net| - 1] in net;
      FlyingNone(net[..|net| - 1], a, m);
    }
  }

  lemma {:induction false} KeptOnce(s: Shard, a: Addr, m: Measure, n: nat, i: int, unit: nat)
    requires forall j: nat :: j < n && Keeps(s, j, a) ==> j == i && At(m, s.received[j].accounts, a) == unit
    ensures KeptSum(s, a, m, n) == if 0 <= i < n && Keeps(s, i, a) then unit else 0
  {
    if n > 0 {
      KeptOnce(s, a, m, n - 1, i, unit);
    }
  }

  predicate KeptBy(shards: seq<Shard>, k: nat, a: Addr, m: Measure, senders: nat, i: int, h: int, unit: nat)
    requires k < |shards|
  {
    KeptSum(shards[k], a, m, senders) == if k == h && 0 <= i < senders && Keeps(shards[k], i, a) then unit else 0
  }

  lemma {:induction false} ReceivedOnce(shards: seq<Shard>, a: Addr, m: Measure, senders: nat, i: int, h: int,
      unit: nat)
    requires forall k: nat :: k < |shards| ==> KeptBy(shards, k, a, m, senders, i, h, unit)
    ensures ReceivedSum(shards, a, m, senders)
         == if 0 <= h < |shards| && 0 <= i < senders && Keeps(shards[h], i, a) then unit else 0
  {
    if shards != [] {
      var init := shards[..|shards| - 1];
      forall k: nat | k < |init| ensures KeptBy(init, k, a, m, senders, i, h, unit) {
        assert KeptBy(shards, k, a, m, senders, i, h, unit);
      }
      ReceivedOnce(init, a, m, senders, i, h, unit);
      assert KeptBy(shards, |shards| - 1, a, m, senders, i, h, unit);
    }
  }

  // ---------- The two homes that matter ----------

  /** A shard that is behind no other. */
  lemma {:induction false} Hindmost(shards: seq<Shard>) returns (z: nat)
    requires shards != []
    ensures z < |shards| && forall k :: 0 <= k < |shards| ==> shards[z].round <= shards[k].round
  {
    if |shards| == 1 {
      z := 0;
    } else {
      z := Hindmost(shards[..|shards| - 1]);
      if shards[|shards| - 1].round < shards[z].round {
        z := |shards| - 1;
      }
    }
  }

  /** All shards are in round `lo`, some of them already shipping or past it. */
  ghost predicate Around(cfg: Config, s: System, lo: nat) {
    InRounds(cfg, s) && Placed(cfg, s) && lo <= |s.sup.issued| && s.shards != []
    && (forall k: nat :: k < |s.shards| ==> RoundAt(s.shards, k, lo) && InStep(s.sup.issued, s.shards, k))
  }

  predicate RoundAt(shards: seq<Shard>, k: nat, lo: nat)
    requires k < |shards|
  {
    lo <= shards[k].round <= Shipped(shards[k]) <= lo + 1
  }

  lemma RoundIs(cfg: Config, s: System) returns (lo: nat)
    requires InRounds(cfg, s) && Placed(cfg, s)
    ensures Around(cfg, s, lo)
  {
    var z := Hindmost(s.shards);
    lo := s.shards[z].round;
    forall k: nat | k < |s.shards| ensures RoundAt(s.shards, k, lo) && InStep(s.sup.issued, s.shards, k) {
      KnownPair(s.shards, s.net, z, k);
      KnownPair(s.shards, s.net, k, k);
      PlacedShard(cfg, s, k);
    }
    KnownShard(cfg, s.sup.issued, s.shards, z);
  }

  /** The home of `a` in round `lo`, and the one it gets at the end of that round. */
  function Old(cfg: Config, s: System, lo: nat, a: Addr): ShardId
    requires lo <= |s.sup.issued|
  {
    HomeAt(cfg, s.sup.issued, lo, a)
  }

  function New(cfg: Config, s: System, lo: nat, a: Addr): ShardId
    requires lo <= |s.sup.issued|
  {
    if lo < |s.sup.issued| then HomeAt(cfg, s.sup.issued, lo + 1, a) else Old(cfg, s, lo, a)
  }

  lemma HomesInRange(cfg: Config, s: System, lo: nat, a: Addr)
    requires Around(cfg, s, lo)
    ensures Old(cfg, s, lo, a) < |s.shards| && New(cfg, s, lo, a) < |s.shards|
  {
    OverlayInRange(cfg, s.sup.issued, lo);
    if lo < |s.sup.issued| {
      OverlayInRange(cfg, s.sup.issued, lo + 1);
    }
  }

  /** The shard that holds `a`, or -1 while a parcel carries it. */
  function Holder(cfg: Config, s: System, lo: nat, a: Addr): int
    requires lo <= |s.sup.issued|
  {
    var i, k := Old(cfg, s, lo, a), New(cfg, s, lo, a);
    if i >= |s.shards| || k >= |s.shards| then -1
    else if i == k || Shipped(s.shards[i]) == lo then i
    else if s.shards[k].round == lo + 1 then k
    else -1
  }

  lemma HoldsMeans(cfg: Config, issued: seq<PartitionMap>, sh: Shard, y: ShardId, a: Addr, lo: nat)
    requires lo <= sh.round <= Shipped(sh) <= lo + 1 && Shipped(sh) <= |issued|
    ensures Holds(cfg, issued, sh, y, a) <==>
      HomeAt(cfg, issued, if sh.round == lo then lo else lo + 1, a) == y
      && HomeAt(cfg, issued, if Shipped(sh) == lo then lo else lo + 1, a) == y
  {
  }

  lemma HolderHolds(cfg: Config, s: System, lo: nat, a: Addr, y: ShardId)
    requires Around(cfg, s, lo) && y < |s.shards|
    ensures InStep(s.sup.issued, s.shards, y)
    ensures Holds(cfg, s.sup.issued, s.shards[y], y, a) <==> y == Holder(cfg, s, lo, a)
  {
    HomesInRange(cfg, s, lo, a);
    var i, k := Old(cfg, s, lo, a), New(cfg, s, lo, a);
    assert RoundAt(s.shards, y, lo) && RoundAt(s.shards, i, lo) && RoundAt(s.shards, k, lo);
    assert InStep(s.sup.issued, s.shards, y) && InStep(s.sup.issued, s.shards, i) && InStep(s.sup.issued, s.shards, k);
    assert s.shards[y].round <= Shipped(s.shards[i]) && s.shards[k].round <= Shipped(s.shards[i]) by {
      KnownPair(s.shards, s.net, y, i);
      KnownPair(s.shards, s.net, k, i);
    }
    HoldsMeans(cfg, s.sup.issued, s.shards[y], y, a, lo);
  }

  lemma HolderSum(cfg: Config, s: System, lo: nat, a: Addr, m: Measure)
    requires Around(cfg, s, lo)
    ensures HeldSum(cfg, s.sup.issued, s.shards, a, m, |s.shards|)
         == if Holder(cfg, s, lo, a) >= 0 then At(m, s.hist.ledger, a) else 0
  {
    var h, unit := Holder(cfg, s, lo, a), At(m, s.hist.ledger, a);
    forall k: nat | k < |s.shards| ensures HeldBy(cfg, s.sup.issued, s.shards, k, a, m, h, unit) {
      HolderHolds(cfg, s, lo, a, k);
      PlacedShard(cfg, s, k);
    }
    HeldOnce(cfg, s.sup.issued, s.shards, a, m, |s.shards|, h, unit);
  }

  /** A parcel on its way from `x` to `y`, or waiting there, is one of round `lo`. */
  lemma ParcelRound(cfg: Config, s: System, lo: nat, a: Addr, x: ShardId, y: ShardId, parcel: Parcel, m: Measure)
    requires Around(cfg, s, lo) && x < |s.shards| && y < |s.shards| && x != y
    requires Shipped(s.shards[x]) == s.shards[y].round + 1
    requires ParcelOk(cfg, s.sup.issued, s.hist.ledger, s.shards[y].round, x, y, parcel)
    ensures s.shards[y].round == lo
    ensures a in parcel.accounts <==> x == Old(cfg, s, lo, a) && y == New(cfg, s, lo, a)
    ensures a in parcel.accounts ==> At(m, parcel.accounts, a) == At(m, s.hist.ledger, a)
  {
    assert RoundAt(s.shards, x, lo) && RoundAt(s.shards, y, lo);
    MovesMeans(cfg, s.sup.issued, lo, a);
  }

  lemma FlyingParcel(cfg: Config, s: System, lo: nat, a: Addr, pkt: Packet, m: Measure)
    requires Around(cfg, s, lo) && pkt in s.net
    ensures Carries(pkt, a) <==>
      TagOf(pkt) == ShipTag(Old(cfg, s, lo, a), New(cfg, s, lo, a)) && Old(cfg, s, lo, a) != New(cfg, s, lo, a)
    ensures Carries(pkt, a) ==> At(m, pkt.parcel.accounts, a) == At(m, s.hist.ledger, a)
  {
    if pkt.Shipment? {
      KnownPacket(s.shards, s.sup.issued, s.net, pkt);
      PlacedPacket(cfg, s, pkt);
      KnownPair(s.shards, s.net, pkt.from, pkt.to);
      CountIn(s.net, pkt);
      ParcelRound(cfg, s, lo, a, pkt.from, pkt.to, pkt.parcel, m);
    }
  }

  lemma FlyingSums(cfg: Config, s: System, lo: nat, a: Addr, m: Measure)
    requires Around(cfg, s, lo)
    ensures var i, k := Old(cfg, s, lo, a), New(cfg, s, lo, a);
      FlyingSum(s.net, a, m) == if i != k && Count(s.net, ShipTag(i, k)) == 1 then At(m, s.hist.ledger, a) else 0
  {
    var i, k := Old(cfg, s, lo, a), New(cfg, s, lo, a);
    HomesInRange(cfg, s, lo, a);
    forall pkt | pkt in s.net
      ensures Carries(pkt, a) <==> TagOf(pkt) == ShipTag(i, k) && i != k
      ensures Carries(pkt, a) ==> At(m, pkt.parcel.accounts, a) == At(m, s.hist.ledger, a)
    {
      FlyingParcel(cfg, s, lo, a, pkt, m);
    }
    if i != k {
      KnownPair(s.shards, s.net, i, k);
      FlyingTagged(s.net, a, m, ShipTag(i, k), At(m, s.hist.ledger, a));
    } else {
      FlyingNone(s.net, a, m);
    }
  }

  lemma KeptParcel(cfg: Config, s: System, lo: nat, a: Addr, x: ShardId, y: ShardId, m: Measure)
    requires Around(cfg, s, lo) && y < |s.shards| && x in s.shards[y].received
    ensures Keeps(s.shards[y], x, a) <==> x == Old(cfg, s, lo, a) && y == New(cfg, s, lo, a)
    ensures Keeps(s.shards[y], x, a) ==> At(m, s.shards[y].received[x].accounts, a) == At(m, s.hist.ledger, a)
    ensures x != y
  {
    KnownShard(cfg, s.sup.issued, s.shards, y);
    PlacedShard(cfg, s, y);
    KnownPair(s.shards, s.net, x, y);
    ParcelRound(cfg, s, lo, a, x, y, s.shards[y].received[x], m);
  }

  lemma ReceivedSums(cfg: Config, s: System, lo: nat, a: Addr, m: Measure)
    requires Around(cfg, s, lo)
    ensures var i, k := Old(cfg, s, lo, a), New(cfg, s, lo, a);
      k < |s.shards|
      && ReceivedSum(s.shards, a, m, |s.shards|)
         == if i != k && i in s.shards[k].received then At(m, s.hist.ledger, a) else 0
  {
    var i, k, n := Old(cfg, s, lo, a), New(cfg, s, lo, a), |s.shards|;
    HomesInRange(cfg, s, lo, a);
    forall y: nat | y < n ensures KeptBy(s.shards, y, a, m, n, i, k, At(m, s.hist.ledger, a)) {
      forall x: nat | x < n && Keeps(s.shards[y], x, a)
        ensures x == i && y == k && At(m, s.shards[y].received[x].accounts, a) == At(m, s.hist.ledger, a)
      {
        KeptParcel(cfg, s, lo, a, x, y, m);
      }
      KeptOnce(s.shards[y], a, m, n, i, At(m, s.hist.ledger, a));
    }
    ReceivedOnce(s.shards, a, m, n, i, k, At(m, s.hist.ledger, a));
    if i in s.shards[k].received {
      KeptParcel(cfg, s, lo, a, i, k, m);
    }
  }

  /** Every account is in exactly one place, and the balance there is the ledger's. */
  lemma OnePlace(cfg: Config, s: System, a: Addr, m: Measure)
    requires InRounds(cfg, s) && Placed(cfg, s)
    ensures PlaceSum(cfg, s, a, m) == At(m, s.hist.ledger, a)
  {
    var lo := RoundIs(cfg, s);
    var i, k := Old(cfg, s, lo, a), New(cfg, s, lo, a);
    HomesInRange(cfg, s, lo, a);
    HolderSum(cfg, s, lo, a, m);
    FlyingSums(cfg, s, lo, a, m);
    ReceivedSums(cfg, s, lo, a, m);
    assert RoundAt(s.shards, i, lo) && RoundAt(s.shards, k, lo);
    KnownPair(s.shards, s.net, i, k);
    KnownPair(s.shards, s.net, k, i);
  }
}
