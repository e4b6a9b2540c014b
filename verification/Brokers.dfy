/**
 The broker split: a raw cross-shard transaction becomes tx1 (sender to broker) and, once tx1 is
 confirmed, tx2 (broker to recipient). Hashes are injective; those of tx1 and tx2 are written as
 two disjoint functions of the raw hash.
 */
module Brokers {
  import opened Basics
  import opened Ledger

  function Tx1Hash(raw: nat): nat {
    2 * raw
  }

  function Tx2Hash(raw: nat): nat {
    2 * raw + 1
  }

  function Tx1(raw: Tx, broker: Addr): Tx {
    Tx(Tx1Hash(raw.hash), raw.sender, broker, raw.value, false, false, false, raw.sender, raw.recipient, Some(raw.hash))
  }

  function Tx2(raw: Tx, broker: Addr): Tx {
    Tx(Tx2Hash(raw.hash), broker, raw.recipient, raw.value, false, false, false, raw.sender, raw.recipient,
      Some(raw.hash))
  }

  function AllTx1(raws: seq<Tx>, broker: Addr): seq<Tx> {
    if raws == [] then [] else AllTx1(raws[..|raws| - 1], broker) + [Tx1(raws[|raws| - 1], broker)]
  }

  function AllTx2(raws: seq<Tx>, broker: Addr): seq<Tx> {
    if raws == [] then [] else AllTx2(raws[..|raws| - 1], broker) + [Tx2(raws[|raws| - 1], broker)]
  }

  // ---------- The supervisor's records ----------

  /** The raw messages, the two confirm pools (by hash of tx1 and tx2) and the record of confirmed
      halves of each raw transaction. */
  datatype Desk = Desk(raws: set<Tx>, pool1: map<nat, Tx>, pool2: map<nat, Tx>, record: map<nat, seq<nat>>)

  function RecordOf(d: Desk, raw: nat): seq<nat> {
    if raw in d.record then d.record[raw] else []
  }

  function Note(d: Desk, raw: Tx, half: nat): Desk {
    d.(record := d.record[raw.hash := RecordOf(d, raw.hash) + [half]])
  }

  function Register(d: Desk, raws: seq<Tx>): Desk {
    if raws == [] then d
    else
      var raw := raws[|raws| - 1];
      var e := Register(d, raws[..|raws| - 1]);
      e.(raws := e.raws + {raw}, pool1 := e.pool1[Tx1Hash(raw.hash) := raw])
  }

  /** The raw transactions whose tx1 (tx2) is among the reported ones, in the order reported. */
  function Found(pool: map<nat, Tx>, txs: seq<Tx>): seq<Tx> {
    if txs == [] then []
    else
      var tx := txs[|txs| - 1];
      Found(pool, txs[..|txs| - 1]) + if tx.hash in pool then [pool[tx.hash]] else []
  }

  /** Those of the confirmed raw transactions that were registered. */
  function Registered(raws: set<Tx>, confirmed: seq<Tx>): seq<Tx> {
    if confirmed == [] then []
    else
      var raw := confirmed[|confirmed| - 1];
      Registered(raws, confirmed[..|confirmed| - 1]) + if raw in raws then [raw] else []
  }

  function Confirm1(d: Desk, confirmed: seq<Tx>): Desk {
    if confirmed == [] then d
    else
      var raw := confirmed[|confirmed| - 1];
      var e := Confirm1(d, confirmed[..|confirmed| - 1]);
      if raw in e.raws then Note(e, raw, Tx1Hash(raw.hash)) else e
  }

  function AwaitTx2(d: Desk, raws: seq<Tx>): Desk {
    if raws == [] then d
    else
      var raw := raws[|raws| - 1];
      var e := AwaitTx2(d, raws[..|raws| - 1]);
      e.(pool2 := e.pool2[Tx2Hash(raw.hash) := raw])
  }

  function Confirm2(d: Desk, confirmed: seq<Tx>): Desk {
    if confirmed == [] then d
    else
      var raw := confirmed[|confirmed| - 1];
      Note(Confirm2(d, confirmed[..|confirmed| - 1]), raw, Tx2Hash(raw.hash))
  }

  /** A report of committed broker transactions: first all tx1, which sends their tx2, then all tx2. */
  function Report(d: Desk, txs: seq<Tx>): Desk {
    var found1, found2 := Found(d.pool1, txs), Found(d.pool2, txs);
    Confirm2(AwaitTx2(Confirm1(d, found1), Registered(d.raws, found1)), found2)
  }

  // ---------- Runs ----------

  /** The desk, every tx1 and tx2 sent, the raw transactions dealt with and what was reported. */
  datatype World = World(desk: Desk, sent: seq<Tx>, dealt: seq<Tx>, reported: set<nat>)

  datatype Happening = DealHappens(raws: seq<Tx>) | ReportHappens(txs: seq<Tx>)

  ghost predicate DistinctHashes(txs: seq<Tx>) {
    forall i, j :: 0 <= i < j < |txs| ==> txs[i].hash != txs[j].hash
  }

  /** Raw transactions have distinct hashes, and each sent half is reported at most once. */
  ghost predicate MayHappen(w: World, h: Happening) {
    match h
    case DealHappens(raws) => DistinctHashes(w.dealt + raws)
    case ReportHappens(txs) =>
      DistinctHashes(txs) && forall tx :: tx in txs ==> tx in w.sent && tx.hash !in w.reported
  }

  function Hashes(txs: seq<Tx>): set<nat> {
    set tx | tx in txs :: tx.hash
  }

  function Happen(w: World, broker: Addr, h: Happening): World {
    match h
    case DealHappens(raws) =>
      w.(desk := Register(w.desk, raws), sent := w.sent + AllTx1(raws, broker), dealt := w.dealt + raws)
    case ReportHappens(txs) =>
      w.(desk := Report(w.desk, txs),
         sent := w.sent + AllTx2(Registered(w.desk.raws, Found(w.desk.pool1, txs)), broker),
         reported := w.reported + Hashes(txs))
  }

  const FRESH_WORLD := World(Desk({}, map[], map[], map[]), [], [], {})

  ghost predicate IsBrokerRun(broker: Addr, run: seq<World>) {
    |run| > 0 && run[0] == FRESH_WORLD && forall i: nat :: i + 1 < |run| ==> NextHappens(broker, run, i)
  }

  ghost predicate NextHappens(broker: Addr, run: seq<World>, i: nat)
    requires i + 1 < |run|
  {
    exists h :: MayHappen(run[i], h) && Happen(run[i], broker, h) == run[i + 1]
  }

  function Times(txs: seq<Tx>, hash: nat): nat {
    if txs == [] then 0 else Times(txs[..|txs| - 1], hash) + if txs[|txs| - 1].hash == hash then 1 else 0
  }

  function If(b: bool, x: nat): seq<nat> {
    if b then [x] else []
  }
}
