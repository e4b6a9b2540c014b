/**
 What executing a block does when nothing is assumed of anybody's funds: an unaffordable transfer changes
 nothing, money inside the shard is conserved, the order of the body counts, and a shard that holds every
 account is the sequential reference ledger.
 */
module BlockLaws {
  import opened Ledger

  /** The shard's own transfers: neither phase is anywhere else, and no broker takes part. */
  predicate Inner(site: Site, tx: Tx) {
    !tx.relayed && !tx.hasBroker && Local(site, tx.sender) && Local(site, tx.recipient)
  }

  ghost predicate AllInner(site: Site, body: seq<Tx>) {
    forall tx :: tx in body ==> Inner(site, tx)
  }

  /** One transaction in plain terms: a debit takes place if it is not relayed and the sender lives here or a
      broker takes part, a credit if the recipient lives here or a broker takes part; without the money for
      the debit nothing happens. */
  lemma ExecTxPlain(site: Site, acc: Accounts, tx: Tx, i: nat)
    ensures var debits := !tx.relayed && (HomeOf(site.cfg, site.pmap, tx.sender) == site.shard || tx.hasBroker);
      var credits := HomeOf(site.cfg, site.pmap, tx.recipient) == site.shard || tx.hasBroker;
      var poor := debits && (if tx.sender in acc then acc[tx.sender].balance else INIT_BALANCE) < tx.value;
      (poor ==> ExecTx(site, acc, tx, i) == acc && Starves(site, acc, tx))
      && (!poor ==> forall a ::
            Balance(ExecTx(site, acc, tx, i), a) + (if debits && a == tx.sender then tx.value else 0)
            == Balance(acc, a) + (if credits && a == tx.recipient then tx.value else 0))
  {
  }

  /** Nonces stay; an account that is new has its position in the block. */
  lemma ExecTxNonces(site: Site, acc: Accounts, tx: Tx, i: nat)
    ensures var after := ExecTx(site, acc, tx, i);
      (forall a :: a in acc ==> a in after && after[a].nonce == acc[a].nonce)
      && forall a :: a in after && a !in acc ==> (a == tx.sender || a == tx.recipient) && after[a].nonce == i
  {
  }

  /** What the sender cannot pay does not happen, neither here nor at the recipient. */
  lemma UnaffordableIsSkipped(site: Site, acc: Accounts, tx: Tx, i: nat)
    requires Inner(site, tx) && Balance(acc, tx.sender) < tx.value
    ensures ExecTx(site, acc, tx, i) == acc
  {
  }

  /** What the sender can pay moves its value from the sender to the recipient. */
  lemma AffordableMoves(site: Site, acc: Accounts, tx: Tx, i: nat, a: Addr)
    requires Inner(site, tx) && Balance(acc, tx.sender) >= tx.value
    ensures Balance(ExecTx(site, acc, tx, i), a) + (if a == tx.sender then tx.value else 0)
         == Balance(acc, a) + (if a == tx.recipient then tx.value else 0)
  {
  }

  // ---------- Conservation ----------

  ghost predicate DistinctAddrs(who: seq<Addr>) {
    forall i, j :: 0 <= i < j < |who| ==> who[i] != who[j]
  }

  /** The balances of the listed accounts together. */
  function SumOf(acc: Accounts, who: seq<Addr>): nat {
    if who == [] then 0 else SumOf(acc, who[..|who| - 1]) + Balance(acc, who[|who| - 1])
  }

  function Share(who: seq<Addr>, a: Addr, value: nat): nat {
    if a in who then value else 0
  }

  lemma {:induction false} SumMoves(site: Site, acc: Accounts, tx: Tx, i: nat, who: seq<Addr>)
    requires Inner(site, tx) && Balance(acc, tx.sender) >= tx.value && DistinctAddrs(who)
    ensures SumOf(ExecTx(site, acc, tx, i), who) + Share(who, tx.sender, tx.value)
         == SumOf(acc, who) + Share(who, tx.recipient, tx.value)
  {
    if who != [] {
      var init, last := who[..|who| - 1], who[|who| - 1];
      assert who == init + [last] && last !in init;
      SumMoves(site, acc, tx, i, init);
      AffordableMoves(site, acc, tx, i, last);
    }
  }

  /** A block of the shard's own transfers neither makes nor destroys money, whether its senders can pay or
      not: the balances of any accounts that include the parties add up to the same before and after. */
  lemma {:induction false} InnerBlockConserves(site: Site, acc: Accounts, body: seq<Tx>, who: seq<Addr>)
    requires AllInner(site, body) && DistinctAddrs(who)
    requires forall tx :: tx in body ==> tx.sender in who && tx.recipient in who
    ensures SumOf(Execute(site, acc, body), who) == SumOf(acc, who)
  {
    if body != [] {
      var i := |body| - 1;
      assert body[i] in body && forall tx :: tx in body[..i] ==> tx in body;
      InnerBlockConserves(site, acc, body[..i], who);
      var mid := Execute(site, acc, body[..i]);
      if Balance(mid, body[i].sender) < body[i].value {
        UnaffordableIsSkipped(site, mid, body[i], i);
      } else {
        SumMoves(site, mid, body[i], i, who);
      }
    }
  }

  // ---------- The reference ledger without funding ----------

  /** A line of the dataset that the sender cannot afford changes no balance; one it can moves its value. */
  lemma ReferenceLine(balances: map<Addr, nat>, tx: Tx, a: Addr)
    ensures RefBalance(balances, tx.sender) < tx.value ==>
      RefBalance(ReferenceStep(balances, tx), a) == RefBalance(balances, a)
    ensures RefBalance(balances, tx.sender) >= tx.value ==>
      RefBalance(ReferenceStep(balances, tx), a) + (if a == tx.sender then tx.value else 0)
      == RefBalance(balances, a) + (if a == tx.recipient then tx.value else 0)
  {
  }

  /** A shard that is home to all parties is the sequential reference ledger, for every dataset: it skips
      exactly the lines the reference skips, and every account has the reference balance. */
  lemma {:induction false} ExecuteIsReference(site: Site, dataset: seq<Tx>, a: Addr)
    requires AllInner(site, dataset)
    ensures Balance(Execute(site, map[], dataset), a) == RefBalance(Reference(dataset), a)
  {
    if dataset != [] {
      var i := |dataset| - 1;
      var init, tx := dataset[..i], dataset[i];
      assert tx in dataset && forall t :: t in init ==> t in dataset;
      ExecuteIsReference(site, init, a);
      ExecuteIsReference(site, init, tx.sender);
      ReferenceLine(Reference(init), tx, a);
      var mid := Execute(site, map[], init);
      if Balance(mid, tx.sender) < tx.value {
        UnaffordableIsSkipped(site, mid, tx, i);
      } else {
        AffordableMoves(site, mid, tx, i, a);
      }
    }
  }

  // ---------- The order of a body ----------

  ghost predicate SameBalances(x: Accounts, y: Accounts) {
    forall a :: Balance(x, a) == Balance(y, a)
  }

  /** The position in the block matters for nonces only. */
  lemma ExecTxSame(site: Site, x: Accounts, y: Accounts, tx: Tx, i: nat, j: nat)
    requires SameBalances(x, y)
    ensures SameBalances(ExecTx(site, x, tx, i), ExecTx(site, y, tx, j))
  {
    assert Starves(site, x, tx) == Starves(site, y, tx) by {
      assert Balance(x, tx.sender) == Balance(y, tx.sender);
    }
    ExecTxPlain(site, x, tx, i);
    ExecTxPlain(site, y, tx, j);
    forall a ensures Balance(ExecTx(site, x, tx, i), a) == Balance(ExecTx(site, y, tx, j), a) {
      assert Balance(x, a) == Balance(y, a);
    }
  }

  /** Executing a body is executing its beginning and then the rest on the result. */
  lemma {:induction false} BodyInOrder(site: Site, acc: Accounts, first: seq<Tx>, rest: seq<Tx>)
    ensures SameBalances(Execute(site, acc, first + rest), Execute(site, Execute(site, acc, first), rest))
  {
    if rest == [] {
      assert first + rest == first;
    } else {
      var j, i := |rest| - 1, |first + rest| - 1;
      assert (first + rest)[..i] == first + rest[..j] && (first + rest)[i] == rest[j];
      BodyInOrder(site, acc, first, rest[..j]);
      var x, y := Execute(site, acc, first + rest[..j]), Execute(site, Execute(site, acc, first), rest[..j]);
      ExecTxSame(site, x, y, rest[j], i, j);
    }
  }
}
