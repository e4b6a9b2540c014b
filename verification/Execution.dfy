/**
 What executing a block does to balances: one shard agrees with the global ledger
 on its own accounts, and balances move by exactly the executed phases.
 */
module Execution {
  import opened Basics
  import opened Ledger

  /** The address whose home decides where a queued transaction belongs. */
  function Anchor(tx: Tx): Addr {
    if tx.relayed then tx.recipient else tx.sender
  }

  /** A non-broker transaction that its shard may execute. */
  predicate AtHome(site: Site, tx: Tx) {
    !tx.hasBroker && Local(site, Anchor(tx))
  }

  ghost predicate AllAtHome(site: Site, txs: seq<Tx>) {
    forall tx :: tx in txs ==> AtHome(site, tx)
  }

  function Mark(tx: Tx): Tx {
    tx.(relayed := true)
  }

  function MarkAll(txs: seq<Tx>): (r: seq<Tx>)
    ensures |r| == |txs|
    ensures forall i :: 0 <= i < |r| ==> r[i] == Mark(txs[i])
  {
    if txs == [] then [] else MarkAll(txs[..|txs| - 1]) + [Mark(txs[|txs| - 1])]
  }

  /** Transactions of the body executed for the first time (their sender is debited). */
  function Firsts(body: seq<Tx>): seq<Tx> {
    if body == [] then []
    else
      var tx := body[|body| - 1];
      Firsts(body[..|body| - 1]) + if tx.relayed then [] else [tx]
  }

  /** Transactions of the body that are finished by it (their recipient is credited). */
  function Seconds(site: Site, body: seq<Tx>): seq<Tx> {
    if body == [] then []
    else
      var tx := body[|body| - 1];
      Seconds(site, body[..|body| - 1]) + if Local(site, tx.recipient) then [Mark(tx)] else []
  }

  /** Two account stores hold the same entry (or none) for `a`. */
  predicate Same(x: Accounts, y: Accounts, a: Addr) {
    (a in x <==> a in y) && (a in x ==> x[a] == y[a])
  }

  ghost predicate AgreeAt(site: Site, x: Accounts, y: Accounts) {
    forall a :: Local(site, a) ==> Same(x, y, a)
  }

  lemma ExecTxAgrees(site: Site, x: Accounts, y: Accounts, tx: Tx, i: nat)
    requires AtHome(site, tx) && AgreeAt(site, x, y)
    ensures AgreeAt(site, ExecTx(site, x, tx, i), ExecTx(site, y, tx, i))
    ensures Starves(site, x, tx) == Starves(site, y, tx)
    ensures forall a :: !Local(site, a) ==> Same(ExecTx(site, y, tx, i), y, a)
  {
  }

  /** A shard that agrees with the ledger on its own accounts keeps agreeing after a block,
      and the block touches nobody else's account. */
  lemma {:induction false} ExecuteAgrees(site: Site, x: Accounts, y: Accounts, body: seq<Tx>)
    requires AllAtHome(site, body) && AgreeAt(site, x, y)
    ensures AgreeAt(site, Execute(site, x, body), Execute(site, y, body))
    ensures SomeStarve(site, x, body) == SomeStarve(site, y, body)
    ensures forall a :: !Local(site, a) ==> Same(Execute(site, y, body), y, a)
  {
    if body != [] {
      var i := |body| - 1;
      assert AllAtHome(site, body[..i]);
      ExecuteAgrees(site, x, y, body[..i]);
      ExecTxAgrees(site, Execute(site, x, body[..i]), Execute(site, y, body[..i]), body[i], i);
    }
  }

  lemma ExecTxFlow(site: Site, acc: Accounts, tx: Tx, i: nat, a: Addr)
    requires AtHome(site, tx) && !Starves(site, acc, tx)
    ensures Balance(ExecTx(site, acc, tx, i), a) + (if tx.relayed then 0 else Amount(tx, a, Outgoing))
         == Balance(acc, a) + (if Local(site, tx.recipient) then Amount(tx, a, Incoming) else 0)
  {
  }

  lemma FlowSnoc(txs: seq<Tx>, tx: Tx, a: Addr, dir: Direction)
    ensures Flow(txs + [tx], a, dir) == Flow(txs, a, dir) + Amount(tx, a, dir)
  {
    assert (txs + [tx])[..|txs + [tx]| - 1] == txs;
  }

  lemma FlowFirsts(body: seq<Tx>, a: Addr)
    requires body != []
    ensures var tx := body[|body| - 1];
      Flow(Firsts(body), a, Outgoing)
        == Flow(Firsts(body[..|body| - 1]), a, Outgoing) + (if tx.relayed then 0 else Amount(tx, a, Outgoing))
  {
    var tx, init := body[|body| - 1], Firsts(body[..|body| - 1]);
    if tx.relayed {
      assert init + [] == init;
    } else {
      FlowSnoc(init, tx, a, Outgoing);
    }
  }

  lemma FlowSeconds(site: Site, body: seq<Tx>, a: Addr)
    requires body != []
    ensures var tx := body[|body| - 1];
      Flow(Seconds(site, body), a, Incoming)
        == Flow(Seconds(site, body[..|body| - 1]), a, Incoming)
         + (if Local(site, tx.recipient) then Amount(tx, a, Incoming) else 0)
  {
    var tx, init := body[|body| - 1], Seconds(site, body[..|body| - 1]);
    if Local(site, tx.recipient) {
      FlowSnoc(init, Mark(tx), a, Incoming);
    } else {
      assert init + [] == init;
    }
  }

  /** A block whose balance checks pass moves every balance by what it sends and receives. */
  lemma {:induction false} ExecuteFlow(site: Site, acc: Accounts, body: seq<Tx>, a: Addr)
    requires AllAtHome(site, body) && !SomeStarve(site, acc, body)
    ensures Balance(Execute(site, acc, body), a) + Flow(Firsts(body), a, Outgoing)
         == Balance(acc, a) + Flow(Seconds(site, body), a, Incoming)
  {
    if body != [] {
      var i, tx := |body| - 1, body[|body| - 1];
      assert AllAtHome(site, body[..i]);
      ExecuteFlow(site, acc, body[..i], a);
      ExecTxFlow(site, Execute(site, acc, body[..i]), tx, i, a);
      FlowFirsts(body, a);
      FlowSeconds(site, body, a);
    }
  }

  /** The history explains every balance of the ledger. */
  ghost predicate Explained(led: Accounts, first: seq<Tx>, second: seq<Tx>) {
    forall a :: Balance(led, a) + Flow(first, a, Outgoing)
             == INIT_BALANCE + Flow(second, a, Incoming)
  }

  lemma ExplainedAfter(site: Site, led: Accounts, body: seq<Tx>, first: seq<Tx>, second: seq<Tx>)
    requires AllAtHome(site, body) && !SomeStarve(site, led, body)
    requires Explained(led, first, second)
    ensures Explained(Execute(site, led, body), first + Firsts(body), second + Seconds(site, body))
  {
    forall a ensures Balance(Execute(site, led, body), a) + Flow(first + Firsts(body), a, Outgoing)
                  == INIT_BALANCE + Flow(second + Seconds(site, body), a, Incoming)
    {
      ExecuteFlow(site, led, body, a);
      FlowConcat(first, Firsts(body), a, Outgoing);
      FlowConcat(second, Seconds(site, body), a, Incoming);
    }
  }

  function LastFirst(tx: Tx): seq<Tx> {
    if tx.relayed then [] else [tx]
  }

  lemma FirstsSplit(body: seq<Tx>, first: seq<Tx>)
    requires body != []
    ensures first + Firsts(body) == (first + Firsts(body[..|body| - 1])) + LastFirst(body[|body| - 1])
  {
    var init, last := Firsts(body[..|body| - 1]), LastFirst(body[|body| - 1]);
    assert Firsts(body) == init + last;
    assert first + (init + last) == (first + init) + last;
  }

  /** Funding makes every balance check of a block pass: what an account has sent so far,
      together with what this block sends, is part of the injected transactions. */
  lemma {:induction false} FundsSuffice(site: Site, led: Accounts, body: seq<Tx>,
                                        first: seq<Tx>, second: seq<Tx>, injected: seq<Tx>)
    requires AllAtHome(site, body)
    requires Explained(led, first, second)
    requires Funded(injected)
    requires multiset(first + Firsts(body)) <= multiset(injected)
    ensures !SomeStarve(site, led, body)
  {
    if body != [] {
      var tx, init := body[|body| - 1], body[..|body| - 1];
      FirstsSplit(body, first);
      MultisetPrefix(first + Firsts(init), LastFirst(tx), injected);
      assert AllAtHome(site, init);
      FundsSuffice(site, led, init, first, second, injected);
      if !tx.relayed {
        ExplainedAfter(site, led, init, first, second);
        FlowMonotone(first + Firsts(body), injected, tx.sender, Outgoing);
        FlowSnoc(first + Firsts(init), tx, tx.sender, Outgoing);
      }
    }
  }
}
