/** Chains of blocks as values: replay, what the tip hash fixes, what replay conserves, the id indexes. */
module ChainRules {
  import opened Domain
  import opened Crypto
  import opened LedgerRules
  import opened LedgerEffects

  /** The ledger after a chain whose first block is genesis, starting from the first-start ledger. */
  function Replay(blocks: seq<Block>, l: Ledger): Result<Ledger>
    requires blocks != []
  {
    if |blocks| == 1 then Ok(l) else
      var before := Replay(blocks[..|blocks| - 1], l);
      if before.Err? then before else CheckBlock(blocks[|blocks| - 1], blocks[|blocks| - 2], before.value)
  }

  /** The operations of all blocks after genesis. */
  function ChainOps(blocks: seq<Block>): seq<Op> {
    if |blocks| <= 1 then [] else ChainOps(blocks[..|blocks| - 1]) + BlockOps(blocks[|blocks| - 1])
  }

  /** A block that its header allows is accepted if and only if its creates run on the ledger, its payments on what
      they leave, and its closes on what those leave, which is then the new ledger. */
  lemma BlockRunsInStages(b: Block, prev: Block, l: Ledger)
    requires CheckHeader(b, prev, l.validators) == Accepted
    ensures var created := Run(CreateOps(b.creates), l);
            var paid := if created.Err? then created else Run(PayOps(b.payments), created.value);
            var closed := if paid.Err? then paid else Run(CloseOps(b.closes), paid.value);
            CheckBlock(b, prev, l) == closed
  {
    hide CheckHeader, Run;
    RunConcat(CreateOps(b.creates) + PayOps(b.payments), CloseOps(b.closes), l);
    RunConcat(CreateOps(b.creates), PayOps(b.payments), l);
  }

  ghost predicate LinkedAt(blocks: seq<Block>, i: int, validators: KeyTable) {
    1 <= i < |blocks| && CheckHeader(blocks[i], blocks[i - 1], validators) == Accepted
  }

  ghost predicate Linked(blocks: seq<Block>, validators: KeyTable) {
    forall i :: 1 <= i < |blocks| ==> LinkedAt(blocks, i, validators)
  }

  lemma LinkedLast(blocks: seq<Block>, validators: KeyTable)
    requires |blocks| > 1
    ensures Linked(blocks, validators) <==>
            Linked(blocks[..|blocks| - 1], validators)
            && CheckHeader(blocks[|blocks| - 1], blocks[|blocks| - 2], validators) == Accepted
  {
    var init := blocks[..|blocks| - 1];
    assert forall i :: 1 <= i < |init| ==> (LinkedAt(blocks, i, validators) <==> LinkedAt(init, i, validators));
    assert LinkedAt(blocks, |init|, validators) <==>
           CheckHeader(blocks[|blocks| - 1], blocks[|blocks| - 2], validators) == Accepted;
  }

  lemma ReplaySnoc(blocks: seq<Block>, b: Block, l: Ledger)
    requires blocks != []
    ensures Replay(blocks + [b], l)
            == if Replay(blocks, l).Err? then Replay(blocks, l)
               else CheckBlock(b, blocks[|blocks| - 1], Replay(blocks, l).value)
  {
    assert (blocks + [b])[..|blocks|] == blocks;
  }

  lemma BlockAfterRun(ops: seq<Op>, b: Block, prev: Block, l: Ledger)
    requires Run(ops, l).Ok?
    ensures var header := CheckHeader(b, prev, l.validators);
            CheckBlock(b, prev, Run(ops, l).value)
            == if header.Rejected? then Err(header.error) else Run(ops + BlockOps(b), l)
  {
    RunConcat(ops, BlockOps(b), l);
    RunFrame(ops, l);
  }

  /** Replay splits into the header checks and the run of all operations. */
  lemma {:induction false} ReplayIsRun(blocks: seq<Block>, l: Ledger)
    requires blocks != []
    ensures Replay(blocks, l).Ok? <==> Linked(blocks, l.validators) && Run(ChainOps(blocks), l).Ok?
    ensures Replay(blocks, l).Ok? ==> Replay(blocks, l) == Run(ChainOps(blocks), l)
  {
    if |blocks| > 1 {
      var init, last := blocks[..|blocks| - 1], blocks[|blocks| - 1];
      ReplayIsRun(init, l);
      LinkedLast(blocks, l.validators);
      if Run(ChainOps(init), l).Err? {
        RunConcat(ChainOps(init), BlockOps(last), l);
      } else {
        BlockAfterRun(ChainOps(init), last, blocks[|blocks| - 2], l);
      }
    }
  }

  lemma ReplayNext(blocks: seq<Block>, i: nat, l: Ledger)
    requires 0 < i < |blocks| && Replay(blocks[..i], l).Ok?
    ensures Replay(blocks[..i + 1], l) == CheckBlock(blocks[i], blocks[i - 1], Replay(blocks[..i], l).value)
  {
    ReplaySnoc(blocks[..i], blocks[i], l);
    assert blocks[..i + 1] == blocks[..i] + [blocks[i]];
  }

  lemma CheckedHeight(b: Block, prev: Block, l: Ledger)
    requires CheckBlock(b, prev, l).Ok?
    ensures b.height == prev.height + 1
  {
  }

  lemma {:induction false} ReplayPrefix(blocks: seq<Block>, n: nat, l: Ledger)
    requires 0 < n <= |blocks| && Replay(blocks, l).Ok?
    ensures Replay(blocks[..n], l).Ok?
    decreases |blocks|
  {
    if n == |blocks| {
      assert blocks[..n] == blocks;
    } else {
      assert blocks[..|blocks| - 1][..n] == blocks[..n];
      ReplayPrefix(blocks[..|blocks| - 1], n, l);
    }
  }

  lemma {:induction false} LinkedHeights(blocks: seq<Block>, validators: KeyTable, i: nat)
    requires Linked(blocks, validators) && i < |blocks|
    ensures blocks[i].height == blocks[0].height + i
  {
    if i > 0 {
      LinkedHeights(blocks, validators, i - 1);
      assert LinkedAt(blocks, i, validators);
    }
  }

  /** In an accepted chain the block at position i has the height of the first block plus i. */
  lemma {:induction false} AcceptedHeights(blocks: seq<Block>, l: Ledger)
    requires blocks != [] && Replay(blocks, l).Ok?
    ensures forall i :: 0 <= i < |blocks| ==> blocks[i].height == blocks[0].height + i
  {
    ReplayIsRun(blocks, l);
    forall i | 0 <= i < |blocks| ensures blocks[i].height == blocks[0].height + i {
      LinkedHeights(blocks, l.validators, i);
    }
  }

  // ---------------------------------------------------------------------------------------------
  // The tip hash determines the chain and the ledger
  // ---------------------------------------------------------------------------------------------

  predicate SameOp(a: Op, b: Op) {
    match (a, b)
    case (CreateOp(x), CreateOp(y)) => SameCreate(x, y)
    case (PayOp(x), PayOp(y)) => SamePayment(x, y)
    case (CloseOp(x), CloseOp(y)) => SameClose(x, y)
    case _ => false
  }

  lemma SameOpSameEffect(a: Op, b: Op, l: Ledger)
    requires SameOp(a, b) && Apply(a, l).Ok? && Apply(b, l).Ok?
    ensures Apply(a, l) == Apply(b, l)
  {
  }

  lemma {:induction false} SameOpsSameRun(a: seq<Op>, b: seq<Op>, l: Ledger)
    requires |a| == |b| && (forall i :: 0 <= i < |a| ==> SameOp(a[i], b[i]))
    requires Run(a, l).Ok? && Run(b, l).Ok?
    ensures Run(a, l) == Run(b, l)
  {
    if a != [] {
      SameOpsSameRun(a[..|a| - 1], b[..|b| - 1], l);
      SameOpSameEffect(a[|a| - 1], b[|b| - 1], Run(a[..|a| - 1], l).value);
    }
  }

  lemma SameContentSameOps(a: Block, b: Block)
    requires SameContent(a, b)
    ensures |BlockOps(a)| == |BlockOps(b)|
    ensures forall i :: 0 <= i < |BlockOps(a)| ==> SameOp(BlockOps(a)[i], BlockOps(b)[i])
  {
  }

  lemma SameContentSameLedger(a: Block, b: Block, l: Ledger)
    requires SameContent(a, b) && Run(BlockOps(a), l).Ok? && Run(BlockOps(b), l).Ok?
    ensures Run(BlockOps(a), l) == Run(BlockOps(b), l)
  {
    SameContentSameOps(a, b);
    SameOpsSameRun(BlockOps(a), BlockOps(b), l);
  }

  ghost predicate SameContents(p: seq<Block>, q: seq<Block>) {
    |p| == |q| && forall i :: 0 <= i < |p| ==> SameContent(p[i], q[i])
  }

  lemma {:induction false} SameContentsSameLedger(p: seq<Block>, q: seq<Block>, l: Ledger)
    requires p != [] && SameContents(p, q)
    requires Replay(p, l).Ok? && Replay(q, l).Ok?
    ensures Replay(p, l) == Replay(q, l)
  {
    if |p| > 1 {
      SameContentsSameLedger(p[..|p| - 1], q[..|q| - 1], l);
      SameContentSameLedger(p[|p| - 1], q[|q| - 1], Replay(p[..|p| - 1], l).value);
    }
  }

  // What buildGenesisBlock produces: height zero, sealed with its own hash.
  predicate IsGenesis(g: Block) { g.height == 0 && g.hash == BlockHash(g) }

  ghost predicate HashLinkedAt(p: seq<Block>, i: int) {
    && 0 <= i < |p| && p[i].height == i && p[i].hash == BlockHash(p[i])
    && (0 < i ==> p[i].previousHash == p[i - 1].hash)
  }

  ghost predicate HashLinked(p: seq<Block>) {
    forall i :: 0 <= i < |p| ==> HashLinkedAt(p, i)
  }

  lemma AcceptedIsHashLinked(p: seq<Block>, l: Ledger)
    requires p != [] && IsGenesis(p[0]) && Replay(p, l).Ok?
    ensures HashLinked(p)
  {
    AcceptedHeights(p, l);
    ReplayIsRun(p, l);
    forall i | 0 <= i < |p| ensures HashLinkedAt(p, i) {
      assert 0 < i ==> LinkedAt(p, i, l.validators);
    }
  }

  lemma {:induction false} HashDeterminesPrefix(p: seq<Block>, q: seq<Block>, i: nat)
    requires HashLinked(p) && HashLinked(q) && i < |p| && i < |q| && p[i].hash == q[i].hash
    ensures forall k :: 0 <= k <= i ==> SameContent(p[k], q[k])
  {
    assert HashLinkedAt(p, i) && HashLinkedAt(q, i);
    HashCommitsToContent(p[i], q[i]);
    if i > 0 {
      HashDeterminesPrefix(p, q, i - 1);
    }
  }

  /** Two accepted chains, each on a well-formed genesis block, whose tips have equal hashes are equally long and
      hold the same unsigned content at every height; from the same first-start ledger they lead to equal ledgers,
      whatever signatures they carry. */
  lemma TipHashDeterminesLedger(p: seq<Block>, q: seq<Block>, l: Ledger)
    requires p != [] && q != [] && IsGenesis(p[0]) && IsGenesis(q[0])
    requires Replay(p, l).Ok? && Replay(q, l).Ok?
    requires p[|p| - 1].hash == q[|q| - 1].hash
    ensures SameContents(p, q)
    ensures Replay(p, l) == Replay(q, l)
  {
    AcceptedIsHashLinked(p, l);
    AcceptedIsHashLinked(q, l);
    assert HashLinkedAt(p, |p| - 1) && HashLinkedAt(q, |q| - 1);
    HashCommitsToContent(p[|p| - 1], q[|q| - 1]);
    HashDeterminesPrefix(p, q, |p| - 1);
    SameContentsSameLedger(p, q, l);
  }

  // ---------------------------------------------------------------------------------------------
  // Conservation
  // ---------------------------------------------------------------------------------------------

  /** From non-negative balances and rates, every accepted chain leaves the money supply what it was, and every
      balance between zero and that supply. */
  lemma ReplayConserves(blocks: seq<Block>, l: Ledger, a: AccountID)
    requires blocks != [] && Sound(l) && Replay(blocks, l).Ok?
    ensures var after := Replay(blocks, l).value;
            Sound(after) && Supply(after.accounts) == Supply(l.accounts)
            && 0 <= BalanceOf(after.accounts, a) <= Supply(l.accounts)
  {
    ReplayIsRun(blocks, l);
    RunConserves(ChainOps(blocks), l);
    var accounts := Replay(blocks, l).value.accounts;
    SumOverBounds(accounts.Keys, accounts);
  }

  // ---------------------------------------------------------------------------------------------
  // Indexes by id
  // ---------------------------------------------------------------------------------------------

  function IndexBy<T>(txs: seq<T>, idOf: T -> TxID, base: map<TxID, T>): map<TxID, T> {
    if txs == [] then base else
      var last := txs[|txs| - 1];
      IndexBy(txs[..|txs| - 1], idOf, base)[idOf(last) := last]
  }

  lemma {:induction false} IndexConcat<T>(a: seq<T>, b: seq<T>, idOf: T -> TxID, base: map<TxID, T>)
    ensures IndexBy(a + b, idOf, base) == IndexBy(b, idOf, IndexBy(a, idOf, base))
  {
    if b == [] {
      assert a + b == a;
    } else {
      IndexConcat(a, b[..|b| - 1], idOf, base);
      assert (a + b)[..|a + b| - 1] == a + b[..|b| - 1];
    }
  }

  ghost predicate LastAt<T>(txs: seq<T>, idOf: T -> TxID, id: TxID, k: int) {
    0 <= k < |txs| && idOf(txs[k]) == id && forall j :: k < j < |txs| ==> idOf(txs[j]) != id
  }

  ghost predicate Occurs<T>(txs: seq<T>, idOf: T -> TxID, id: TxID) {
    exists k :: LastAt(txs, idOf, id, k)
  }

  /** The index holds an id exactly when it occurs, and then its last occurrence in block order. */
  lemma {:induction false} IndexIsLastOccurrence<T>(txs: seq<T>, idOf: T -> TxID, id: TxID)
    ensures id in IndexBy(txs, idOf, map[]) <==> Occurs(txs, idOf, id)
    ensures forall k :: LastAt(txs, idOf, id, k) ==> IndexBy(txs, idOf, map[])[id] == txs[k]
  {
    if txs != [] {
      var init, last := txs[..|txs| - 1], txs[|txs| - 1];
      IndexIsLastOccurrence(init, idOf, id);
      if idOf(last) == id {
        assert LastAt(txs, idOf, id, |txs| - 1);
      } else {
        forall k ensures LastAt(txs, idOf, id, k) <==> LastAt(init, idOf, id, k) {
          if LastAt(init, idOf, id, k) {
            assert forall j :: k < j < |init| ==> txs[j] == init[j];
          }
          if LastAt(txs, idOf, id, k) {
            assert forall j :: k < j < |init| ==> txs[j] == init[j];
          }
        }
      }
    }
  }

  function AllPayments(blocks: seq<Block>): seq<Payment> {
    if blocks == [] then [] else AllPayments(blocks[..|blocks| - 1]) + blocks[|blocks| - 1].payments
  }

  function AllCreates(blocks: seq<Block>): seq<AccountCreate> {
    if blocks == [] then [] else AllCreates(blocks[..|blocks| - 1]) + blocks[|blocks| - 1].creates
  }

  function AllCloses(blocks: seq<Block>): seq<AccountClose> {
    if blocks == [] then [] else AllCloses(blocks[..|blocks| - 1]) + blocks[|blocks| - 1].closes
  }
}
