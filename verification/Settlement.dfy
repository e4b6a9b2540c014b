/** The single ledger behind the shards: as long as no balance check failed it is explained by
    the executed phases, and funding keeps every balance check from failing. */
module Settlement {
  import opened Ledger
  import opened Execution
  import opened Shards
  import opened Protocol
  import opened Rounds
  import opened Places
  import opened PlaceSteps
  import opened Tally
  import opened TallySteps

  ghost predicate Settled(h: History) {
    (!h.starved ==> Explained(h.ledger, h.first, h.second))
    && (Funded(h.injected) ==> !h.starved)
  }

  lemma {:induction false} HeldIsPending(shards: seq<Shard>, k: nat, n: nat, x: Tx)
    requires k < |shards|
    ensures Held(shards[k], n, x) <= HeldByAll(shards, n, x)
  {
    if k < |shards| - 1 {
      HeldIsPending(shards[..|shards| - 1], k, n, x);
    }
  }

  lemma {:induction false} FirstsAmongBody(body: seq<Tx>, x: Tx)
    ensures Occ(Firsts(body), x) <= Occ(body, x)
  {
    if body != [] {
      var init, tx := body[..|body| - 1], body[|body| - 1];
      FirstsAmongBody(init, x);
      OccSnoc(Firsts(init), tx, x);
      assert Firsts(init) + [] == Firsts(init);
    }
  }

  lemma {:induction false} NoOcc(txs: seq<Tx>, x: Tx)
    requires x !in txs
    ensures Occ(txs, x) == 0
  {
    if txs != [] {
      NoOcc(txs[..|txs| - 1], x);
    }
  }

  lemma {:induction false} SomeOcc(txs: seq<Tx>, x: Tx)
    requires x in txs
    ensures Occ(txs, x) > 0
  {
    if txs[|txs| - 1] != x {
      assert x in txs[..|txs| - 1];
      SomeOcc(txs[..|txs| - 1], x);
    }
  }

  /** An unrelayed transaction is pending or had its first phase. */
  lemma RawBalance(cfg: Config, s: System, x: Tx)
    requires Tallied(cfg, s) && !x.relayed
    ensures Pending(cfg, s, x) + Occ(s.hist.first, x) == Occ(s.hist.injected, x)
  {
    assert Balanced(cfg, s, x);
    NoOcc(s.hist.second, x);
    NoOcc(MarkAll(s.hist.first), x);
  }

  /** What had its first phase, together with an open block's first phases, was injected. */
  lemma FirstsInjected(cfg: Config, s: System, k: ShardId)
    requires Tallied(cfg, s) && k < |s.shards| && s.shards[k].stage.BlockOpen?
    ensures multiset(s.hist.first + Firsts(s.shards[k].stage.body)) <= multiset(s.hist.injected)
  {
    var body := s.shards[k].stage.body;
    forall x ensures multiset(s.hist.first + Firsts(body))[x] <= multiset(s.hist.injected)[x] {
      OccIsMultiplicity(s.hist.first + Firsts(body), x);
      OccIsMultiplicity(s.hist.injected, x);
      OccConcat(s.hist.first, Firsts(body), x);
      if x.relayed {
        BodyMarks(SiteOf(cfg, s.shards[k], k), body);
        NoOcc(s.hist.first, x);
        NoOcc(Firsts(body), x);
      } else {
        RawBalance(cfg, s, x);
        HeldIsPending(s.shards, k, cfg.shards, x);
        FirstsAmongBody(body, x);
      }
    }
  }

  lemma CommitBlockSettled(cfg: Config, s: System, k: ShardId)
    requires InRounds(cfg, s) && Placed(cfg, s) && Tallied(cfg, s) && Settled(s.hist)
    requires Enabled(cfg, s, CommitBlockStep(k))
    ensures Settled(Do(cfg, s, CommitBlockStep(k)).hist)
  {
    var h, site, body := s.hist, SiteOf(cfg, s.shards[k], k), s.shards[k].stage.body;
    BlockLedger(cfg, s, k);
    if Funded(h.injected) {
      FirstsInjected(cfg, s, k);
      FundsSuffice(site, h.ledger, body, h.first, h.second, h.injected);
    }
    if !h.starved && !SomeStarve(site, h.ledger, body) {
      ExplainedAfter(site, h.ledger, body, h.first, h.second);
    }
  }

  lemma InjectSettled(h: History, txs: seq<Tx>)
    requires Settled(h)
    ensures Settled(h.(injected := h.injected + txs))
  {
    if Funded(h.injected + txs) {
      FundedPrefix(h.injected, txs);
    }
  }

  lemma CommitPartitionSettled(cfg: Config, s: System, k: ShardId)
    requires InRounds(cfg, s) && Placed(cfg, s) && Settled(s.hist) && Enabled(cfg, s, CommitPartitionStep(k))
    ensures Settled(Do(cfg, s, CommitPartitionStep(k)).hist)
  {
    PartitionLedgerIs(cfg, s, k);
    var h, h' := s.hist, Do(cfg, s, CommitPartitionStep(k)).hist;
    assert forall a :: Balance(h'.ledger, a) == Balance(h.ledger, a);
  }

  lemma StepSettled(cfg: Config, s: System, step: Step)
    requires InRounds(cfg, s) && Placed(cfg, s) && Tallied(cfg, s) && Settled(s.hist) && Enabled(cfg, s, step)
    ensures Settled(Do(cfg, s, step).hist)
  {
    match step
    case InjectStep(_, txs) => InjectSettled(s.hist, txs);
    case CommitBlockStep(k) => CommitBlockSettled(cfg, s, k);
    case CommitPartitionStep(k) => CommitPartitionSettled(cfg, s, k);
    case _ =>
  }
}
