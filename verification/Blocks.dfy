/**
 Blocks and their headers. Hashes are injective, so a header stands for its own hash, a state
 root for the accounts it commits to, and a transaction root for the set of transaction hashes.
 */
module Blocks {
  import opened Basics
  import opened Ledger

  datatype Header = Header(
    parent: Option<Header>, number: nat, stateRoot: Accounts, txRoot: set<nat>, bloom: set<nat>, miner: int)

  datatype Block = Block(header: Header, body: seq<Tx>)

  const BLOOM_BITS: nat := 2048

  function TxRoot(body: seq<Tx>): set<nat> {
    set tx | tx in body :: tx.hash
  }

  function Bloom(body: seq<Tx>): set<nat> {
    set tx | tx in body :: tx.hash % BLOOM_BITS
  }

  const GENESIS: Block := Block(Header(None, 0, map[], {}, {}, 0), [])

  /** What a node checks before it prepares a block. */
  predicate IsValidBlock(tip: Block, b: Block) {
    b.header.parent == Some(tip.header) && TxRoot(b.body) == b.header.txRoot
  }

  /** What a node checks before it appends a block. */
  predicate Fits(tip: Block, b: Block) {
    b.header.number == tip.header.number + 1 && b.header.parent == Some(tip.header)
  }

  /** The block mined on `tip` with the given body and resulting accounts. */
  function Mined(tip: Block, body: seq<Tx>, accounts: Accounts, miner: int): Block {
    Block(Header(Some(tip.header), tip.header.number + 1, accounts, TxRoot(body), Bloom(body), miner), body)
  }

  /** The header commits to the body. */
  predicate Sealed(b: Block) {
    b.header.txRoot == TxRoot(b.body) && b.header.bloom == Bloom(b.body)
  }

  lemma MinedIsSealed(tip: Block, body: seq<Tx>, accounts: Accounts, miner: int)
    ensures Sealed(Mined(tip, body, accounts, miner)) && Fits(tip, Mined(tip, body, accounts, miner))
    ensures IsValidBlock(tip, Mined(tip, body, accounts, miner))
  {
  }

  // ---------- Executing on a database of states ----------

  /** An empty body needs no state; any other needs the trie of the tip's root. */
  predicate CanExecute(tip: Block, known: set<Accounts>, body: seq<Tx>) {
    body == [] || tip.header.stateRoot in known
  }

  /** The stored states after executing a body on the tip. */
  function KnownAfter(site: Site, tip: Block, known: set<Accounts>, body: seq<Tx>): set<Accounts> {
    if body == [] then known else known + {Execute(site, tip.header.stateRoot, body)}
  }

  /** The block carries the state its body leads to. */
  predicate Executes(site: Site, tip: Block, b: Block) {
    b.header.stateRoot == Execute(site, tip.header.stateRoot, b.body)
  }

  datatype AddResult = Added | Refused | Crashed

  /** A block that does not fit is refused. A block whose root is known is not executed. */
  function Adding(tip: Block, known: set<Accounts>, b: Block): AddResult {
    if !Fits(tip, b) then Refused
    else if b.header.stateRoot in known || CanExecute(tip, known, b.body) then Added
    else Crashed
  }

  function KnownAfterAdd(site: Site, tip: Block, known: set<Accounts>, b: Block): set<Accounts> {
    if Adding(tip, known, b) == Added && b.header.stateRoot !in known then KnownAfter(site, tip, known, b.body)
    else known
  }

  /** On a readable tip nothing crashes; the state of an appended block that carries its execution is
      readable again, whether it was executed or known. */
  lemma AddKeepsReadable(site: Site, tip: Block, known: set<Accounts>, b: Block)
    requires tip.header.stateRoot in known
    ensures Adding(tip, known, b) == if Fits(tip, b) then Added else Refused
    ensures tip.header.stateRoot in KnownAfterAdd(site, tip, known, b)
    ensures Fits(tip, b) && Executes(site, tip, b) ==> b.header.stateRoot in KnownAfterAdd(site, tip, known, b)
  {
  }
}
