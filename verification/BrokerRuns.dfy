/** Over every run the broker split sends each half once, the second only after the first is
    confirmed, and its records tell exactly what was confirmed. */
module BrokerRuns {
  import opened Ledger
  import opened Execution
  import opened Brokers

  ghost predicate Listed(txs: seq<Tx>, hash: nat) {
    exists tx :: tx in txs && tx.hash == hash
  }

  /** What holds of every raw hash at all times. */
  ghost predicate RawOk(w: World, h: nat) {
    && (Tx1Hash(h) in w.desk.pool1 <==> Listed(w.dealt, h))
    && (Tx2Hash(h) in w.desk.pool2 <==> Tx1Hash(h) in w.reported)
    && RecordOf(w.desk, h) == If(Tx1Hash(h) in w.reported, Tx1Hash(h)) + If(Tx2Hash(h) in w.reported, Tx2Hash(h))
    && Times(w.sent, Tx1Hash(h)) == (if Tx1Hash(h) in w.desk.pool1 then 1 else 0)
    && Times(w.sent, Tx2Hash(h)) == (if Tx1Hash(h) in w.reported then 1 else 0)
    && (Tx2Hash(h) in w.reported ==> Tx1Hash(h) in w.reported)
    && (Tx1Hash(h) in w.reported ==> Tx1Hash(h) in w.desk.pool1)
  }

  ghost predicate PoolsOk(d: Desk) {
    (forall k :: k in d.pool1 ==> k == Tx1Hash(d.pool1[k].hash) && d.pool1[k] in d.raws)
    && (forall k :: k in d.pool2 ==> k == Tx2Hash(d.pool2[k].hash))
  }

  ghost predicate WorldOk(w: World) {
    PoolsOk(w.desk) && DistinctHashes(w.dealt) && forall h: nat :: RawOk(w, h)
  }

  // ---------- What the loops do, hash by hash ----------

  lemma {:induction false} RegisterPools(d: Desk, raws: seq<Tx>)
    requires PoolsOk(d)
    ensures var e := Register(d, raws);
      PoolsOk(e) && e.pool2 == d.pool2 && e.record == d.record
      && forall h: nat :: Tx1Hash(h) in e.pool1 <==> Tx1Hash(h) in d.pool1 || Listed(raws, h)
  {
    if raws != [] {
      var init, raw := raws[..|raws| - 1], raws[|raws| - 1];
      assert raws == init + [raw];
      RegisterPools(d, init);
      forall h: nat ensures Tx1Hash(h) in Register(d, raws).pool1 <==> Tx1Hash(h) in d.pool1 || Listed(raws, h) {
        assert raw in raws;
      }
    }
  }

  lemma TimesSnoc(txs: seq<Tx>, tx: Tx, hash: nat)
    ensures Times(txs + [tx], hash) == Times(txs, hash) + if tx.hash == hash then 1 else 0
  {
    assert (txs + [tx])[..|txs + [tx]| - 1] == txs;
  }

  lemma {:induction false} TimesConcat(x: seq<Tx>, y: seq<Tx>, hash: nat)
    ensures Times(x + y, hash) == Times(x, hash) + Times(y, hash)
  {
    if y == [] {
      assert x + y == x;
    } else {
      assert (x + y)[..|x + y| - 1] == x + y[..|y| - 1];
      TimesConcat(x, y[..|y| - 1], hash);
    }
  }

  lemma {:induction false} TimesIn(txs: seq<Tx>, hash: nat)
    ensures Times(txs, hash) > 0 <==> Listed(txs, hash)
    ensures DistinctHashes(txs) ==> Times(txs, hash) <= 1
  {
    if txs != [] {
      var init, last := txs[..|txs| - 1], txs[|txs| - 1];
      assert txs == init + [last];
      TimesIn(init, hash);
      assert last in txs;
    }
  }

  lemma {:induction false} TimesOfHalves(raws: seq<Tx>, broker: Addr, h: nat)
    ensures Times(AllTx1(raws, broker), Tx1Hash(h)) == Times(raws, h) && Times(AllTx1(raws, broker), Tx2Hash(h)) == 0
    ensures Times(AllTx2(raws, broker), Tx2Hash(h)) == Times(raws, h) && Times(AllTx2(raws, broker), Tx1Hash(h)) == 0
  {
    if raws != [] {
      var init, raw := raws[..|raws| - 1], raws[|raws| - 1];
      TimesOfHalves(init, broker, h);
      TimesSnoc(AllTx1(init, broker), Tx1(raw, broker), Tx1Hash(h));
      TimesSnoc(AllTx1(init, broker), Tx1(raw, broker), Tx2Hash(h));
      TimesSnoc(AllTx2(init, broker), Tx2(raw, broker), Tx2Hash(h));
      TimesSnoc(AllTx2(init, broker), Tx2(raw, broker), Tx1Hash(h));
    }
  }

  /** The raw transactions found are those whose half was reported. */
  lemma FoundTimes(d: Desk, txs: seq<Tx>, h: nat)
    requires PoolsOk(d)
    ensures Times(Found(d.pool1, txs), h) == if Tx1Hash(h) in d.pool1 then Times(txs, Tx1Hash(h)) else 0
    ensures Times(Found(d.pool2, txs), h) == if Tx2Hash(h) in d.pool2 then Times(txs, Tx2Hash(h)) else 0
    ensures Registered(d.raws, Found(d.pool1, txs)) == Found(d.pool1, txs)
  {
    FoundTimes1(d, txs, h);
    FoundTimes2(d, txs, h);
    FoundRegistered(d, txs);
  }

  lemma {:induction false} FoundTimes1(d: Desk, txs: seq<Tx>, h: nat)
    requires PoolsOk(d)
    ensures Times(Found(d.pool1, txs), h) == if Tx1Hash(h) in d.pool1 then Times(txs, Tx1Hash(h)) else 0
  {
    if txs != [] {
      var init, tx := txs[..|txs| - 1], txs[|txs| - 1];
      FoundTimes1(d, init, h);
      FoundLast(d, d.pool1, init, tx, h);
      assert txs == init + [tx];
      TimesSnoc(init, tx, Tx1Hash(h));
    }
  }

  lemma {:induction false} FoundTimes2(d: Desk, txs: seq<Tx>, h: nat)
    requires PoolsOk(d)
    ensures Times(Found(d.pool2, txs), h) == if Tx2Hash(h) in d.pool2 then Times(txs, Tx2Hash(h)) else 0
  {
    if txs != [] {
      var init, tx := txs[..|txs| - 1], txs[|txs| - 1];
      FoundTimes2(d, init, h);
      FoundLast(d, d.pool2, init, tx, h);
      assert txs == init + [tx];
      TimesSnoc(init, tx, Tx2Hash(h));
    }
  }

  lemma {:induction false} FoundRegistered(d: Desk, txs: seq<Tx>)
    requires PoolsOk(d)
    ensures Registered(d.raws, Found(d.pool1, txs)) == Found(d.pool1, txs)
  {
    if txs != [] {
      var init, tx := txs[..|txs| - 1], txs[|txs| - 1];
      FoundRegistered(d, init);
      assert txs == init + [tx];
      RegisteredLast(d, init, tx);
    }
  }

  lemma FoundLast(d: Desk, pool: map<nat, Tx>, init: seq<Tx>, tx: Tx, h: nat)
    ensures Times(Found(pool, init + [tx]), h)
         == Times(Found(pool, init), h) + if tx.hash in pool && pool[tx.hash].hash == h then 1 else 0
  {
    assert (init + [tx])[..|init + [tx]| - 1] == init;
    if tx.hash in pool {
      TimesSnoc(Found(pool, init), pool[tx.hash], h);
    } else {
      assert Found(pool, init) + [] == Found(pool, init);
    }
  }

  lemma RegisteredLast(d: Desk, init: seq<Tx>, tx: Tx)
    requires PoolsOk(d) && Registered(d.raws, Found(d.pool1, init)) == Found(d.pool1, init)
    ensures Registered(d.raws, Found(d.pool1, init + [tx])) == Found(d.pool1, init + [tx])
  {
    assert (init + [tx])[..|init + [tx]| - 1] == init;
    var before, after := Found(d.pool1, init), Found(d.pool1, init + [tx]);
    if tx.hash in d.pool1 {
      assert after[..|after| - 1] == before;
    } else {
      assert after == before;
    }
  }

  /** Recording a list of confirmed halves, seen at one raw hash that occurs at most once. */
  lemma {:induction false} Confirm1At(d: Desk, confirmed: seq<Tx>, h: nat)
    requires Registered(d.raws, confirmed) == confirmed && Times(confirmed, h) <= 1
    ensures var e := Confirm1(d, confirmed);
      e.raws == d.raws && e.pool1 == d.pool1 && e.pool2 == d.pool2
      && RecordOf(e, h) == RecordOf(d, h) + If(Times(confirmed, h) == 1, Tx1Hash(h))
  {
    if confirmed == [] {
      assert RecordOf(d, h) + [] == RecordOf(d, h);
    } else {
      var init, raw := confirmed[..|confirmed| - 1], confirmed[|confirmed| - 1];
      RegisteredInit(d.raws, confirmed);
      Confirm1At(d, init, h);
      assert RecordOf(d, h) + [] == RecordOf(d, h);
    }
  }

  lemma {:induction false} RegisteredShorter(raws: set<Tx>, confirmed: seq<Tx>)
    ensures |Registered(raws, confirmed)| <= |confirmed|
  {
    if confirmed != [] {
      RegisteredShorter(raws, confirmed[..|confirmed| - 1]);
    }
  }

  lemma RegisteredInit(raws: set<Tx>, confirmed: seq<Tx>)
    requires confirmed != [] && Registered(raws, confirmed) == confirmed
    ensures Registered(raws, confirmed[..|confirmed| - 1]) == confirmed[..|confirmed| - 1]
    ensures confirmed[|confirmed| - 1] in raws
  {
    var init := confirmed[..|confirmed| - 1];
    RegisteredShorter(raws, init);
    if confirmed[|confirmed| - 1] in raws {
      assert confirmed[..|confirmed| - 1] == Registered(raws, init);
    }
  }

  lemma {:induction false} AwaitTx2At(d: Desk, raws: seq<Tx>, h: nat)
    ensures var e := AwaitTx2(d, raws);
      e.raws == d.raws && e.pool1 == d.pool1 && e.record == d.record
      && (Tx2Hash(h) in e.pool2 <==> Tx2Hash(h) in d.pool2 || Times(raws, h) > 0)
  {
    if raws != [] {
      AwaitTx2At(d, raws[..|raws| - 1], h);
    }
  }

  lemma {:induction false} AwaitTx2Pools(d: Desk, raws: seq<Tx>)
    requires PoolsOk(d)
    ensures PoolsOk(AwaitTx2(d, raws))
  {
    if raws != [] {
      AwaitTx2Pools(d, raws[..|raws| - 1]);
      AwaitTx2At(d, raws[..|raws| - 1], 0);
    }
  }

  lemma {:induction false} Confirm2At(d: Desk, confirmed: seq<Tx>, h: nat)
    requires Times(confirmed, h) <= 1
    ensures var e := Confirm2(d, confirmed);
      e.raws == d.raws && e.pool1 == d.pool1 && e.pool2 == d.pool2
      && RecordOf(e, h) == RecordOf(d, h) + If(Times(confirmed, h) == 1, Tx2Hash(h))
  {
    if confirmed == [] {
      assert RecordOf(d, h) + [] == RecordOf(d, h);
    } else {
      Confirm2At(d, confirmed[..|confirmed| - 1], h);
      assert RecordOf(d, h) + [] == RecordOf(d, h);
    }
  }

  /** The half is new to the desk: its raw transaction is pooled and the report has it. */
  predicate Arrives(pool: map<nat, Tx>, txs: seq<Tx>, half: nat) {
    half in pool && Times(txs, half) == 1
  }

  lemma FoundOnce(d: Desk, txs: seq<Tx>, h: nat)
    requires PoolsOk(d) && DistinctHashes(txs)
    ensures Times(Found(d.pool1, txs), h) == if Arrives(d.pool1, txs, Tx1Hash(h)) then 1 else 0
    ensures Times(Found(d.pool2, txs), h) == if Arrives(d.pool2, txs, Tx2Hash(h)) then 1 else 0
    ensures Registered(d.raws, Found(d.pool1, txs)) == Found(d.pool1, txs)
  {
    FoundTimes(d, txs, h);
    TimesIn(txs, Tx1Hash(h));
    TimesIn(txs, Tx2Hash(h));
  }

  /** A whole report, seen at one raw hash. */
  lemma ReportAt(d: Desk, txs: seq<Tx>, h: nat)
    requires PoolsOk(d) && DistinctHashes(txs)
    ensures Report(d, txs).pool1 == d.pool1
    ensures Tx2Hash(h) in Report(d, txs).pool2 <==> Tx2Hash(h) in d.pool2 || Arrives(d.pool1, txs, Tx1Hash(h))
    ensures RecordOf(Report(d, txs), h) == RecordOf(d, h) + If(Arrives(d.pool1, txs, Tx1Hash(h)), Tx1Hash(h))
      + If(Arrives(d.pool2, txs, Tx2Hash(h)), Tx2Hash(h))
  {
    var found1, found2 := Found(d.pool1, txs), Found(d.pool2, txs);
    FoundOnce(d, txs, h);
    var d1 := Confirm1(d, found1);
    Confirm1At(d, found1, h);
    AwaitTx2At(d1, found1, h);
    Confirm2At(AwaitTx2(d1, found1), found2, h);
  }

  /** A report that holds a second half which was not awaited before does not record it, even if it holds the
      first half as well: both pools are looked up before either list is handled. */
  lemma OnlyAwaitedAreRecorded(d: Desk, txs: seq<Tx>, h: nat)
    requires PoolsOk(d) && DistinctHashes(txs) && Tx2Hash(h) !in d.pool2
    ensures Tx2Hash(h) in RecordOf(Report(d, txs), h) <==> Tx2Hash(h) in RecordOf(d, h)
  {
    ReportAt(d, txs, h);
  }

  lemma ReportPools(d: Desk, txs: seq<Tx>)
    requires PoolsOk(d) && DistinctHashes(txs)
    ensures PoolsOk(Report(d, txs))
  {
    var found1, found2 := Found(d.pool1, txs), Found(d.pool2, txs);
    var e := AwaitTx2(Confirm1(d, found1), Registered(d.raws, found1));
    assert PoolsOk(Confirm1(d, found1)) by {
      Confirm1Pools(d, found1);
    }
    AwaitTx2Pools(Confirm1(d, found1), Registered(d.raws, found1));
    Confirm2Pools(e, found2);
  }

  lemma {:induction false} Confirm1Pools(d: Desk, confirmed: seq<Tx>)
    ensures var e := Confirm1(d, confirmed); e.raws == d.raws && e.pool1 == d.pool1 && e.pool2 == d.pool2
  {
    if confirmed != [] {
      Confirm1Pools(d, confirmed[..|confirmed| - 1]);
    }
  }

  lemma {:induction false} Confirm2Pools(d: Desk, confirmed: seq<Tx>)
    ensures var e := Confirm2(d, confirmed); e.raws == d.raws && e.pool1 == d.pool1 && e.pool2 == d.pool2
  {
    if confirmed != [] {
      Confirm2Pools(d, confirmed[..|confirmed| - 1]);
    }
  }

  // ---------- Every step keeps it ----------

  lemma DealtBy(dealt: seq<Tx>, raws: seq<Tx>, h: nat)
    requires DistinctHashes(dealt + raws)
    ensures DistinctHashes(dealt) && DistinctHashes(raws)
    ensures !(Listed(dealt, h) && Listed(raws, h))
    ensures Listed(dealt + raws, h) <==> Listed(dealt, h) || Listed(raws, h)
  {
    var all := dealt + raws;
    assert forall i :: 0 <= i < |dealt| ==> all[i] == dealt[i];
    assert forall i :: 0 <= i < |raws| ==> all[|dealt| + i] == raws[i];
  }

  lemma DealRaw(w: World, broker: Addr, raws: seq<Tx>, h: nat)
    requires WorldOk(w) && MayHappen(w, DealHappens(raws))
    ensures RawOk(Happen(w, broker, DealHappens(raws)), h)
  {
    assert RawOk(w, h);
    RegisterPools(w.desk, raws);
    DealtBy(w.dealt, raws, h);
    TimesConcat(w.sent, AllTx1(raws, broker), Tx1Hash(h));
    TimesConcat(w.sent, AllTx1(raws, broker), Tx2Hash(h));
    TimesOfHalves(raws, broker, h);
    TimesIn(raws, h);
  }

  lemma {:induction false} HashesIn(txs: seq<Tx>, hash: nat)
    ensures hash in Hashes(txs) <==> Times(txs, hash) > 0
  {
    TimesIn(txs, hash);
  }

  lemma ReportedWasSent(w: World, txs: seq<Tx>, hash: nat)
    requires MayHappen(w, ReportHappens(txs)) && Times(txs, hash) > 0
    ensures Times(w.sent, hash) > 0 && hash !in w.reported
  {
    TimesIn(txs, hash);
    var tx :| tx in txs && tx.hash == hash;
    assert tx in w.sent;
    TimesIn(w.sent, hash);
  }

  lemma ReportSends(w: World, broker: Addr, txs: seq<Tx>, h: nat)
    requires WorldOk(w) && MayHappen(w, ReportHappens(txs))
    ensures var v := Happen(w, broker, ReportHappens(txs));
      Times(v.sent, Tx1Hash(h)) == Times(w.sent, Tx1Hash(h))
      && Times(v.sent, Tx2Hash(h))
        == Times(w.sent, Tx2Hash(h)) + if Arrives(w.desk.pool1, txs, Tx1Hash(h)) then 1 else 0
  {
    var found := Found(w.desk.pool1, txs);
    FoundOnce(w.desk, txs, h);
    TimesConcat(w.sent, AllTx2(found, broker), Tx1Hash(h));
    TimesConcat(w.sent, AllTx2(found, broker), Tx2Hash(h));
    TimesOfHalves(found, broker, h);
  }

  /** A reported half arrives at the desk, and was not reported before. */
  lemma ReportedArrives(w: World, txs: seq<Tx>, h: nat)
    requires RawOk(w, h) && MayHappen(w, ReportHappens(txs))
    ensures Tx1Hash(h) in Hashes(txs) <==> Arrives(w.desk.pool1, txs, Tx1Hash(h))
    ensures Tx2Hash(h) in Hashes(txs) <==> Arrives(w.desk.pool2, txs, Tx2Hash(h))
    ensures Tx1Hash(h) in Hashes(txs) ==> Tx1Hash(h) !in w.reported
    ensures Tx2Hash(h) in Hashes(txs) ==> Tx2Hash(h) !in w.reported
  {
    HashesIn(txs, Tx1Hash(h));
    HashesIn(txs, Tx2Hash(h));
    TimesIn(txs, Tx1Hash(h));
    TimesIn(txs, Tx2Hash(h));
    if Times(txs, Tx1Hash(h)) > 0 {
      ReportedWasSent(w, txs, Tx1Hash(h));
    }
    if Times(txs, Tx2Hash(h)) > 0 {
      ReportedWasSent(w, txs, Tx2Hash(h));
    }
  }

  lemma ReportRaw(w: World, broker: Addr, txs: seq<Tx>, h: nat)
    requires WorldOk(w) && MayHappen(w, ReportHappens(txs))
    ensures RawOk(Happen(w, broker, ReportHappens(txs)), h)
  {
    assert RawOk(w, h);
    ReportAt(w.desk, txs, h);
    ReportSends(w, broker, txs, h);
    ReportedArrives(w, txs, h);
    RawFollows(w, Happen(w, broker, ReportHappens(txs)), txs, h);
  }

  /** The bookkeeping of one raw hash across a report. */
  lemma RawFollows(w: World, v: World, txs: seq<Tx>, h: nat)
    requires RawOk(w, h) && v.dealt == w.dealt && v.desk.pool1 == w.desk.pool1 && v.reported == w.reported + Hashes(txs)
    requires var one, two := Tx1Hash(h) in Hashes(txs), Tx2Hash(h) in Hashes(txs);
      (one ==> Tx1Hash(h) in w.desk.pool1 && Tx1Hash(h) !in w.reported)
      && (two ==> Tx2Hash(h) in w.desk.pool2 && Tx2Hash(h) !in w.reported)
      && (Tx2Hash(h) in v.desk.pool2 <==> Tx2Hash(h) in w.desk.pool2 || one)
      && RecordOf(v.desk, h) == RecordOf(w.desk, h) + If(one, Tx1Hash(h)) + If(two, Tx2Hash(h))
      && Times(v.sent, Tx1Hash(h)) == Times(w.sent, Tx1Hash(h))
      && Times(v.sent, Tx2Hash(h)) == Times(w.sent, Tx2Hash(h)) + if one then 1 else 0
    ensures RawOk(v, h)
  {
  }

  lemma HappenOk(w: World, broker: Addr, h: Happening)
    requires WorldOk(w) && MayHappen(w, h)
    ensures WorldOk(Happen(w, broker, h))
  {
    match h
    case DealHappens(raws) =>
      RegisterPools(w.desk, raws);
      forall k: nat ensures RawOk(Happen(w, broker, h), k) {
        DealRaw(w, broker, raws, k);
      }
    case ReportHappens(txs) =>
      ReportPools(w.desk, txs);
      forall k: nat ensures RawOk(Happen(w, broker, h), k) {
        ReportRaw(w, broker, txs, k);
      }
  }

  lemma {:induction false} RunOk(broker: Addr, run: seq<World>, i: nat)
    requires IsBrokerRun(broker, run) && i < |run|
    ensures WorldOk(run[i])
  {
    if i > 0 {
      RunOk(broker, run, i - 1);
      assert NextHappens(broker, run, i - 1);
      var h :| MayHappen(run[i - 1], h) && Happen(run[i - 1], broker, h) == run[i];
      HappenOk(run[i - 1], broker, h);
    }
  }

  // ---------- Where the halves come from ----------

  /** The transaction is a half of a raw transaction dealt with. */
  ghost predicate HalfOf(tx: Tx, dealt: seq<Tx>, broker: Addr) {
    exists raw :: raw in dealt && (tx == Tx1(raw, broker) || tx == Tx2(raw, broker))
  }

  ghost predicate FromDealt(w: World, broker: Addr) {
    (forall raw :: raw in w.desk.raws ==> raw in w.dealt) && forall tx :: tx in w.sent ==> HalfOf(tx, w.dealt, broker)
  }

  lemma {:induction false} RegisterRaws(d: Desk, raws: seq<Tx>)
    ensures forall raw :: raw in Register(d, raws).raws <==> raw in d.raws || raw in raws
  {
    if raws != [] {
      var init, last := raws[..|raws| - 1], raws[|raws| - 1];
      RegisterRaws(d, init);
      assert raws == init + [last];
    }
  }

  lemma {:induction false} HalvesOf(raws: seq<Tx>, broker: Addr, dealt: seq<Tx>)
    requires forall raw :: raw in raws ==> raw in dealt
    ensures forall tx :: tx in AllTx1(raws, broker) || tx in AllTx2(raws, broker) ==> HalfOf(tx, dealt, broker)
  {
    if raws != [] {
      var init, last := raws[..|raws| - 1], raws[|raws| - 1];
      HalvesOf(init, broker, dealt);
      assert last in raws;
      assert HalfOf(Tx1(last, broker), dealt, broker) && HalfOf(Tx2(last, broker), dealt, broker);
    }
  }

  lemma {:induction false} RegisteredIn(raws: set<Tx>, confirmed: seq<Tx>)
    ensures forall raw :: raw in Registered(raws, confirmed) ==> raw in raws
  {
    if confirmed != [] {
      RegisteredIn(raws, confirmed[..|confirmed| - 1]);
    }
  }

  lemma ReportKeepsRaws(d: Desk, txs: seq<Tx>)
    ensures Report(d, txs).raws == d.raws
  {
    var found1, found2 := Found(d.pool1, txs), Found(d.pool2, txs);
    Confirm1Pools(d, found1);
    AwaitTx2At(Confirm1(d, found1), Registered(d.raws, found1), 0);
    Confirm2Pools(AwaitTx2(Confirm1(d, found1), Registered(d.raws, found1)), found2);
  }

  lemma StillHalf(tx: Tx, dealt: seq<Tx>, more: seq<Tx>, broker: Addr)
    requires HalfOf(tx, dealt, broker)
    ensures HalfOf(tx, dealt + more, broker)
  {
    var raw :| raw in dealt && (tx == Tx1(raw, broker) || tx == Tx2(raw, broker));
    assert raw in dealt + more;
  }

  lemma HappenFromDealt(w: World, broker: Addr, h: Happening)
    requires FromDealt(w, broker)
    ensures FromDealt(Happen(w, broker, h), broker)
  {
    var v := Happen(w, broker, h);
    match h
    case DealHappens(raws) =>
      RegisterRaws(w.desk, raws);
      HalvesOf(raws, broker, v.dealt);
      forall tx | tx in v.sent ensures HalfOf(tx, v.dealt, broker) {
        if tx in w.sent {
          StillHalf(tx, w.dealt, raws, broker);
        }
      }
    case ReportHappens(txs) =>
      var raws := Registered(w.desk.raws, Found(w.desk.pool1, txs));
      RegisteredIn(w.desk.raws, Found(w.desk.pool1, txs));
      HalvesOf(raws, broker, v.dealt);
      ReportKeepsRaws(w.desk, txs);
  }

  lemma {:induction false} RunFromDealt(broker: Addr, run: seq<World>, i: nat)
    requires IsBrokerRun(broker, run) && i < |run|
    ensures FromDealt(run[i], broker)
  {
    if i > 0 {
      RunFromDealt(broker, run, i - 1);
      assert NextHappens(broker, run, i - 1);
      var h :| MayHappen(run[i - 1], h) && Happen(run[i - 1], broker, h) == run[i];
      HappenFromDealt(run[i - 1], broker, h);
    }
  }

  lemma SameHashSameRaw(dealt: seq<Tx>, x: Tx, y: Tx)
    requires DistinctHashes(dealt) && x in dealt && y in dealt && x.hash == y.hash
    ensures x == y
  {
    var i :| 0 <= i < |dealt| && dealt[i] == x;
    var j :| 0 <= j < |dealt| && dealt[j] == y;
  }

  /** A list in which only `x` has its hash holds it as often as that hash. */
  lemma {:induction false} OccIsTimes(txs: seq<Tx>, x: Tx)
    requires forall tx :: tx in txs && tx.hash == x.hash ==> tx == x
    ensures multiset(txs)[x] == Times(txs, x.hash)
  {
    if txs != [] {
      var init, last := txs[..|txs| - 1], txs[|txs| - 1];
      assert txs == init + [last];
      OccIsTimes(init, x);
    }
  }

  /** Only one half has its hash. */
  lemma HalfByHash(w: World, broker: Addr, raw: Tx, tx: Tx)
    requires FromDealt(w, broker) && DistinctHashes(w.dealt) && raw in w.dealt && tx in w.sent
    ensures tx.hash == Tx1Hash(raw.hash) ==> tx == Tx1(raw, broker)
    ensures tx.hash == Tx2Hash(raw.hash) ==> tx == Tx2(raw, broker)
  {
    var other :| other in w.dealt && (tx == Tx1(other, broker) || tx == Tx2(other, broker));
    if other.hash == raw.hash {
      SameHashSameRaw(w.dealt, other, raw);
    }
  }

  /** The broker split over every run: a raw transaction dealt with has its tx1 sent exactly once; its
      tx2 is sent exactly once after tx1 is confirmed and not before; nothing but such halves is sent;
      its record is a prefix of [tx1, tx2], telling exactly what was confirmed. */
  lemma BrokerSplit(broker: Addr, run: seq<World>, i: nat, raw: Tx)
    requires IsBrokerRun(broker, run) && i < |run| && raw in run[i].dealt
    ensures var w, one, two := run[i], Tx1(raw, broker), Tx2(raw, broker);
      multiset(w.sent)[one] == 1 && multiset(w.sent)[two] == (if one.hash in RecordOf(w.desk, raw.hash) then 1 else 0)
      && RecordOf(w.desk, raw.hash) <= [one.hash, two.hash]
      && (one.hash in RecordOf(w.desk, raw.hash) <==> one.hash in w.reported)
      && (two.hash in RecordOf(w.desk, raw.hash) <==> two.hash in w.reported)
    ensures forall tx :: tx in run[i].sent ==> HalfOf(tx, run[i].dealt, broker)
  {
    RunOk(broker, run, i);
    RunFromDealt(broker, run, i);
    assert RawOk(run[i], raw.hash);
    forall tx | tx in run[i].sent
      ensures tx.hash == Tx1Hash(raw.hash) ==> tx == Tx1(raw, broker)
      ensures tx.hash == Tx2Hash(raw.hash) ==> tx == Tx2(raw, broker)
    {
      HalfByHash(run[i], broker, raw, tx);
    }
    OccIsTimes(run[i].sent, Tx1(raw, broker));
    OccIsTimes(run[i].sent, Tx2(raw, broker));
  }

  // ---------- When everything sent was reported ----------

  ghost predicate AllReported(w: World) {
    forall tx :: tx in w.sent ==> tx.hash in w.reported
  }

  lemma HalvesOnce(raws: seq<Tx>, broker: Addr, raw: Tx)
    requires DistinctHashes(raws) && raw in raws
    ensures multiset(AllTx1(raws, broker) + AllTx2(raws, broker))[Tx1(raw, broker)] == 1
    ensures multiset(AllTx1(raws, broker) + AllTx2(raws, broker))[Tx2(raw, broker)] == 1
  {
    var all := AllTx1(raws, broker) + AllTx2(raws, broker);
    HalvesOf(raws, broker, raws);
    forall tx | tx in all
      ensures tx.hash == Tx1Hash(raw.hash) ==> tx == Tx1(raw, broker)
      ensures tx.hash == Tx2Hash(raw.hash) ==> tx == Tx2(raw, broker)
    {
      assert HalfOf(tx, raws, broker);
      var other :| other in raws && (tx == Tx1(other, broker) || tx == Tx2(other, broker));
      if other.hash == raw.hash {
        SameHashSameRaw(raws, other, raw);
      }
    }
    OccIsTimes(all, Tx1(raw, broker));
    OccIsTimes(all, Tx2(raw, broker));
    AllHalvesTimes(raws, broker, raw);
  }

  lemma AllHalvesTimes(raws: seq<Tx>, broker: Addr, raw: Tx)
    requires DistinctHashes(raws) && raw in raws
    ensures Times(AllTx1(raws, broker) + AllTx2(raws, broker), Tx1Hash(raw.hash)) == 1
    ensures Times(AllTx1(raws, broker) + AllTx2(raws, broker), Tx2Hash(raw.hash)) == 1
  {
    TimesOfHalves(raws, broker, raw.hash);
    TimesIn(raws, raw.hash);
    TimesConcat(AllTx1(raws, broker), AllTx2(raws, broker), Tx1Hash(raw.hash));
    TimesConcat(AllTx1(raws, broker), AllTx2(raws, broker), Tx2Hash(raw.hash));
  }

  /** Once everything sent was reported, what was sent is exactly both halves of everything dealt with. */
  lemma SentIsHalves(broker: Addr, run: seq<World>, i: nat)
    requires IsBrokerRun(broker, run) && i < |run| && AllReported(run[i])
    ensures multiset(run[i].sent) == multiset(AllTx1(run[i].dealt, broker) + AllTx2(run[i].dealt, broker))
  {
    var w := run[i];
    var all := AllTx1(w.dealt, broker) + AllTx2(w.dealt, broker);
    RunOk(broker, run, i);
    RunFromDealt(broker, run, i);
    HalvesOf(w.dealt, broker, w.dealt);
    forall tx ensures multiset(w.sent)[tx] == multiset(all)[tx] {
      if tx in w.sent || tx in all {
        assert HalfOf(tx, w.dealt, broker);
        var raw :| raw in w.dealt && (tx == Tx1(raw, broker) || tx == Tx2(raw, broker));
        BrokerSplit(broker, run, i, raw);
        HalvesOnce(w.dealt, broker, raw);
        assert Tx1(raw, broker) in w.sent;
      }
    }
  }

  /** A non-broker only sends through first halves. */
  lemma {:induction false} FirstHalvesFlow(raws: seq<Tx>, broker: Addr, a: Addr, dir: Direction)
    requires a != broker
    ensures Flow(AllTx1(raws, broker), a, dir) == if dir == Outgoing then Flow(raws, a, dir) else 0
  {
    if raws != [] {
      var init, raw := raws[..|raws| - 1], raws[|raws| - 1];
      FirstHalvesFlow(init, broker, a, dir);
      FlowSnoc(AllTx1(init, broker), Tx1(raw, broker), a, dir);
    }
  }

  /** A non-broker only receives through second halves. */
  lemma {:induction false} SecondHalvesFlow(raws: seq<Tx>, broker: Addr, a: Addr, dir: Direction)
    requires a != broker
    ensures Flow(AllTx2(raws, broker), a, dir) == if dir == Incoming then Flow(raws, a, dir) else 0
  {
    if raws != [] {
      var init, raw := raws[..|raws| - 1], raws[|raws| - 1];
      SecondHalvesFlow(init, broker, a, dir);
      FlowSnoc(AllTx2(init, broker), Tx2(raw, broker), a, dir);
    }
  }

  /** In every run, once everything sent was reported, non-brokers sent and received through what was
      sent exactly what they send and receive by the raw transactions. */
  lemma SentMovesLikeDealt(broker: Addr, run: seq<World>, i: nat, a: Addr, dir: Direction)
    requires IsBrokerRun(broker, run) && i < |run| && AllReported(run[i]) && a != broker
    ensures Flow(run[i].sent, a, dir) == Flow(run[i].dealt, a, dir)
  {
    var one, two := AllTx1(run[i].dealt, broker), AllTx2(run[i].dealt, broker);
    SentIsHalves(broker, run, i);
    FlowMonotone(run[i].sent, one + two, a, dir);
    FlowMonotone(one + two, run[i].sent, a, dir);
    FlowConcat(one, two, a, dir);
    FirstHalvesFlow(run[i].dealt, broker, a, dir);
    SecondHalvesFlow(run[i].dealt, broker, a, dir);
  }
}
