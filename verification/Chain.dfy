/** The blockchain object of `internal/chain/blockchain.go`. */
module Chain {
  import opened Domain
  import opened Crypto
  import opened LedgerRules
  import opened LedgerState
  import opened Mempool
  import opened Admission
  import opened ChainRules
  import opened Bootstrap
  import opened Store
  import opened Restart

  // The three id indexes, built entry by entry.

  datatype Indexes = Indexes(payments: map<TxID, Payment>, creates: map<TxID, AccountCreate>,
                             closes: map<TxID, AccountClose>)

  function WithBlock(before: Indexes, b: Block): Indexes {
    Indexes(IndexBy(b.payments, PaymentId, before.payments), IndexBy(b.creates, CreateId, before.creates),
            IndexBy(b.closes, CloseId, before.closes))
  }

  /** The indexes of a chain, block by block. */
  function IndexesOf(blocks: seq<Block>): Indexes {
    if blocks == [] then Indexes(map[], map[], map[])
    else WithBlock(IndexesOf(blocks[..|blocks| - 1]), blocks[|blocks| - 1])
  }

  /** What the indexes are for: the last occurrence of every id in block order (IndexIsLastOccurrence). */
  lemma {:induction false} IndexesAreOfAll(blocks: seq<Block>)
    ensures IndexesOf(blocks)
            == Indexes(IndexBy(AllPayments(blocks), PaymentId, map[]), IndexBy(AllCreates(blocks), CreateId, map[]),
                       IndexBy(AllCloses(blocks), CloseId, map[]))
  {
    if blocks != [] {
      var init, b := blocks[..|blocks| - 1], blocks[|blocks| - 1];
      IndexesAreOfAll(init);
      IndexConcat(AllPayments(init), b.payments, PaymentId, map[]);
      IndexConcat(AllCreates(init), b.creates, CreateId, map[]);
      IndexConcat(AllCloses(init), b.closes, CloseId, map[]);
    }
  }

  lemma IndexesSnoc(blocks: seq<Block>, b: Block)
    ensures IndexesOf(blocks + [b]) == WithBlock(IndexesOf(blocks), b)
  {
    assert (blocks + [b])[..|blocks|] == blocks;
  }

  method AddToIndex<T>(txs: seq<T>, idOf: T -> TxID, base: map<TxID, T>) returns (index: map<TxID, T>)
    ensures index == IndexBy(txs, idOf, base)
  {
    index := base;
    for i := 0 to |txs|
      invariant index == IndexBy(txs[..i], idOf, base)
    {
      assert txs[..i + 1][..i] == txs[..i];
      index := index[idOf(txs[i]) := txs[i]];
    }
    assert txs[..|txs|] == txs;
  }

  method AddBlockToIndexes(b: Block, before: Indexes) returns (after: Indexes)
    ensures after == WithBlock(before, b)
  {
    var payments := AddToIndex(b.payments, PaymentId, before.payments);
    var creates := AddToIndex(b.creates, CreateId, before.creates);
    var closes := AddToIndex(b.closes, CloseId, before.closes);
    after := Indexes(payments, creates, closes);
  }

  function SuffixFrom(blocks: seq<Block>, height: int): seq<Block> {
    if height <= 0 then blocks else if height < |blocks| then blocks[height..] else []
  }

  lemma SuffixSnoc(blocks: seq<Block>, b: Block, height: int)
    requires b.height == |blocks|
    ensures SuffixFrom(blocks + [b], height) == SuffixFrom(blocks, height) + if b.height >= height then [b] else []
  {
  }

  class Blockchain {
    const genesis: Genesis
    const store: Store
    var state: State
    var blocks: seq<Block>
    var indexes: Indexes

    ghost predicate Valid()
      reads this, store
    {
      && blocks != []
      && (forall i :: 0 <= i < |blocks| ==> blocks[i].height == i)
      && indexes == IndexesOf(blocks)
      && store.Valid()
    }

    /** The ledger after appending b to the tip, or why it cannot be appended. */
    ghost function Next(b: Block): Result<Ledger>
      requires blocks != []
      reads this, state
    {
      CheckBlock(b, blocks[|blocks| - 1], state.View())
    }

    /** The ledger is the replay of the chain from `first`, and the store would survive a crash right now. */
    ghost predicate Live(first: Ledger)
      reads this, state, store
    {
      && genesis.validators != [] && blocks != []
      && Replay(blocks, first) == Ok(state.View())
      && Durable(store.OnDisk(), blocks, genesis, first)
    }

    constructor (genesis: Genesis, store: Store, state: State, blocks: seq<Block>, indexes: Indexes)
      ensures this.genesis == genesis && this.store == store && this.state == state
      ensures this.blocks == blocks && this.indexes == indexes
    {
      this.genesis, this.store, this.state, this.blocks, this.indexes := genesis, store, state, blocks, indexes;
    }

    method Height() returns (h: int)
      requires Valid()
      ensures h == |blocks| - 1
    {
      h := if |blocks| == 0 then -1 else blocks[|blocks| - 1].height;
    }

    method LatestBlock() returns (b: Block)
      requires Valid()
      ensures b == blocks[|blocks| - 1]
    {
      b := blocks[|blocks| - 1];
    }

    /** The scan finds exactly the block at that position. */
    method GetBlock(height: int) returns (r: Option<Block>)
      requires Valid()
      ensures r == if 0 <= height < |blocks| then Some(blocks[height]) else None
    {
      for i := 0 to |blocks|
        invariant !(0 <= height < i)
      {
        if blocks[i].height == height {
          return Some(blocks[i]);
        }
      }
      return None;
    }

    /** The scan returns exactly a suffix of the chain. */
    method GetBlocksFrom(height: int) returns (out: seq<Block>)
      requires Valid()
      ensures out == SuffixFrom(blocks, height)
    {
      out := [];
      for i := 0 to |blocks|
        invariant out == SuffixFrom(blocks[..i], height)
      {
        SuffixSnoc(blocks[..i], blocks[i], height);
        assert blocks[..i + 1] == blocks[..i] + [blocks[i]];
        if blocks[i].height >= height {
          out := out + [blocks[i]];
        }
      }
      assert blocks[..|blocks|] == blocks;
    }

    method GetTransaction(id: TxID) returns (r: Option<Payment>)
      requires Valid()
      ensures r.Some? <==> Occurs(AllPayments(blocks), PaymentId, id)
      ensures forall k :: LastAt(AllPayments(blocks), PaymentId, id, k) ==> r == Some(AllPayments(blocks)[k])
    {
      IndexIsLastOccurrence(AllPayments(blocks), PaymentId, id);
      IndexesAreOfAll(blocks);
      r := if id in indexes.payments then Some(indexes.payments[id]) else None;
    }

    method Snapshot() returns (s: State)
      ensures fresh(s) && s.View() == state.View()
    {
      s := state.Clone();
    }

    method ValidateAdmit(tx: Payment, reserved: int) returns (r: Outcome)
      ensures r == CheckAdmit(tx, state.View(), reserved)
    {
      var s := state.Clone();
      if tx.payer.id in s.accounts {
        s.AddToBalance(tx.payer.id, -reserved);
      }
      r := ValidateTransaction(tx, s);
    }

    method ValidatePendingWith(tx: Payment, pending: seq<Payment>) returns (r: Outcome)
      ensures r == CheckPendingWith(tx, pending, state.View())
    {
      var s := state.Clone();
      for i := 0 to |pending|
        invariant fresh(s) && s.View() == Replayed(pending[..i], state.View())
      {
        assert pending[..i + 1][..i] == pending[..i];
        var applied := ApplyTransaction(pending[i], s);
      }
      assert pending[..|pending|] == pending;
      r := ValidateTransaction(tx, s);
    }

    /** Appends the block, its ledger, its index entries and its durable record together, or changes nothing. */
    method AppendBlock(b: Block, ioOk: bool) returns (r: Outcome)
      requires Valid()
      modifies this, store
      ensures Valid()
      ensures state == old(state) || fresh(state)
      ensures r == AppendOutcome(old(Next(b)), ioOk)
      ensures r.Rejected? ==> unchanged(this) && unchanged(store)
      ensures r.Accepted? ==>
                && old(Next(b)) == Ok(state.View())
                && blocks == old(blocks) + [b]
                && indexes == IndexesOf(blocks)
                && store.OnDisk() == Disk(old(store.blocks)[b.height := b], Some(Project(state.View())))
      ensures forall first: Ledger :: old(Live(first)) ==> Live(first)
    {
      hide Replay, Durable, IndexesOf, CheckBlock;
      var prev := blocks[|blocks| - 1];
      var next := ValidateBlock(b, prev, state);
      if next.Err? {
        return Rejected(next.error);
      }
      CheckedHeight(b, prev, state.View());
      ghost var d, chain, live := store.OnDisk(), blocks, state.View();
      r := Install(b, next.value, ioOk);
      if r.Accepted? {
        forall first: Ledger | old(Live(first)) ensures Live(first) {
          AppendKeepsDurable(d, chain, b, genesis, first);
          AppendPersists(d, chain, b, live, state.View(), genesis, first);
        }
      }
    }

    method Install(b: Block, next: State, ioOk: bool) returns (r: Outcome)
      requires Valid() && b.height == |blocks| && next != state
      modifies this, store
      ensures Valid()
      ensures r == if ioOk then Accepted else Rejected(StoreFailure)
      ensures r.Rejected? ==> unchanged(this) && unchanged(store)
      ensures r.Accepted? ==> blocks == old(blocks) + [b] && state == next
                              && store.OnDisk() == Disk(old(store.blocks)[b.height := b], Some(Project(next.View())))
    {
      var saved := store.SaveBlockAndState(b, next, ioOk);
      if saved.Rejected? {
        return saved;
      }
      IndexesSnoc(blocks, b);
      blocks := blocks + [b];
      state := next;
      indexes := AddBlockToIndexes(b, indexes);
      return Accepted;
    }
  }

  function AppendOutcome(next: Result<Ledger>, ioOk: bool): Outcome {
    if next.Err? then Rejected(next.error) else if ioOk then Accepted else Rejected(StoreFailure)
  }

  // ---------------------------------------------------------------------------------------------
  // Start-up
  // ---------------------------------------------------------------------------------------------

  lemma {:induction false} CreateKeysErrorSticks(txs: seq<AccountCreate>, n: nat, keys: KeyTable)
    requires n <= |txs| && CreateKeys(txs[..n], keys).Err?
    ensures CreateKeys(txs, keys) == CreateKeys(txs[..n], keys)
    decreases |txs|
  {
    if n == |txs| {
      assert txs[..n] == txs;
    } else {
      assert txs[..|txs| - 1][..n] == txs[..n];
      CreateKeysErrorSticks(txs[..|txs| - 1], n, keys);
    }
  }

  lemma {:induction false} ChainKeysErrorSticks(blocks: seq<Block>, n: nat, keys: KeyTable)
    requires n <= |blocks| && ChainKeys(blocks[..n], keys).Err?
    ensures ChainKeys(blocks, keys) == ChainKeys(blocks[..n], keys)
    decreases |blocks|
  {
    if n == |blocks| {
      assert blocks[..n] == blocks;
    } else {
      assert blocks[..|blocks| - 1][..n] == blocks[..n];
      ChainKeysErrorSticks(blocks[..|blocks| - 1], n, keys);
    }
  }

  method HydrateBlockKeys(state: State, b: Block) returns (r: Outcome)
    modifies state`keys
    ensures var created := CreateKeys(b.creates, old(state.keys));
            if r.Accepted? then created.Ok? && state.keys == CloseKeys(b.closes, created.value)
            else created == Err(r.error)
  {
    for i := 0 to |b.creates|
      invariant CreateKeys(b.creates[..i], old(state.keys)) == Ok(state.keys)
    {
      assert b.creates[..i + 1][..i] == b.creates[..i];
      var pub := ParseKey(b.creates[i].publicKey);
      if pub.Err? {
        CreateKeysErrorSticks(b.creates, i + 1, old(state.keys));
        return Rejected(pub.error);
      }
      state.SetAccountPubKey(b.creates[i].account.id, pub.value);
    }
    assert b.creates[..|b.creates|] == b.creates;
    ghost var created := state.keys;
    for i := 0 to |b.closes|
      invariant state.keys == CloseKeys(b.closes[..i], created)
    {
      assert b.closes[..i + 1][..i] == b.closes[..i];
      state.RemoveAccountPubKey(b.closes[i].account);
    }
    assert b.closes[..|b.closes|] == b.closes;
    return Accepted;
  }

  method HydrateAccountCreatePubKeys(state: State, blocks: seq<Block>) returns (r: Outcome)
    modifies state`keys
    ensures if r.Accepted? then ChainKeys(blocks, old(state.keys)) == Ok(state.keys)
            else ChainKeys(blocks, old(state.keys)) == Err(r.error)
  {
    for i := 0 to |blocks|
      invariant ChainKeys(blocks[..i], old(state.keys)) == Ok(state.keys)
    {
      assert blocks[..i + 1][..i] == blocks[..i];
      r := HydrateBlockKeys(state, blocks[i]);
      if r.Rejected? {
        ChainKeysErrorSticks(blocks, i + 1, old(state.keys));
        return;
      }
    }
    assert blocks[..|blocks|] == blocks;
    return Accepted;
  }

  lemma {:induction false} ReplayErrorSticks(blocks: seq<Block>, n: nat, l: Ledger)
    requires 0 < n <= |blocks| && Replay(blocks[..n], l).Err?
    ensures Replay(blocks, l) == Replay(blocks[..n], l)
    decreases |blocks|
  {
    if n == |blocks| {
      assert blocks[..n] == blocks;
    } else {
      assert blocks[..|blocks| - 1][..n] == blocks[..n];
      ReplayErrorSticks(blocks[..|blocks| - 1], n, l);
    }
  }

  method ReplayStored(blocks: seq<Block>, base: State) returns (r: Outcome)
    requires blocks != []
    ensures r.Accepted? ==> Replay(blocks, base.View()).Ok?
    ensures r.Rejected? ==> Replay(blocks, base.View()) == Err(r.error)
  {
    var state := base;
    ghost var l := base.View();
    assert |blocks[..1]| == 1;
    for i := 1 to |blocks|
      invariant base.View() == l && Replay(blocks[..i], l) == Ok(state.View())
    {
      ReplayNext(blocks, i, l);
      var next := ValidateBlock(blocks[i], blocks[i - 1], state);
      if next.Err? {
        ReplayErrorSticks(blocks, i + 1, l);
        return Rejected(next.error);
      }
      state := next.value;
    }
    assert blocks[..|blocks|] == blocks;
    return Accepted;
  }

  /** Replays the stored chain from the configuration alone. */
  method ValidateChain(blocks: seq<Block>, genesis: Genesis, keystore: Keystore, taxes: TaxTable) returns (r: Outcome)
    ensures var base := InitialLedger(genesis, keystore, taxes);
            if blocks == [] then r == Rejected(EmptyChain)
            else if base.Err? then r == Rejected(base.error)
            else if r.Accepted? then Replay(blocks, base.value).Ok?
            else Replay(blocks, base.value) == Err(r.error)
  {
    if |blocks| == 0 {
      return Rejected(EmptyChain);
    }
    var state := new State(genesis.allowedTax, taxes);
    SetGenesisAccounts(state, genesis.accounts);
    ghost var blank := state.View();
    r := HydrateState(state, genesis, []);
    if r.Rejected? {
      return;
    }
    AddValidatorsTwice(genesis, keystore, blank, state.View());
    r := HydrateState(state, genesis, keystore);
    if r.Rejected? {
      return;
    }
    r := ReplayStored(blocks, state);
  }

  // validateChain adds the genesis validators itself and then hydrates, which adds them again.
  lemma AddValidatorsTwice(genesis: Genesis, keystore: Keystore, blank: Ledger, once: Ledger)
    requires blank.validators == map[] && blank.keys == map[]
    requires Hydrate(blank, genesis, []) == Ok(once)
    ensures Hydrate(once, genesis, keystore) == Hydrate(blank, genesis, keystore)
  {
    AddValidatorsMerges(genesis.validators, once.validators);
    assert once.validators + once.validators == once.validators;
  }

  method RebuildIndexes(blocks: seq<Block>) returns (indexes: Indexes)
    ensures indexes == IndexesOf(blocks)
  {
    indexes := Indexes(map[], map[], map[]);
    for i := 0 to |blocks|
      invariant indexes == IndexesOf(blocks[..i])
    {
      IndexesSnoc(blocks[..i], blocks[i]);
      assert blocks[..i + 1] == blocks[..i] + [blocks[i]];
      indexes := AddBlockToIndexes(blocks[i], indexes);
    }
    assert blocks[..|blocks|] == blocks;
  }

  /** The ledger part of opening a store that already holds blocks. */
  method LoadLedger(list: seq<Block>, genesis: Genesis, store: Store, state: State, keystore: Keystore)
    returns (r: Result<State>)
    requires list != []
    modifies state`keys
    ensures r.Ok? ==> (r.value == state || fresh(r.value))
    ensures if r.Ok? then BootHydrated(list, store.state, old(state.View()), genesis, keystore) == Ok(r.value.View())
            else BootHydrated(list, store.state, old(state.View()), genesis, keystore) == Err(r.error)
    ensures r.Ok? ==> Replays(list, genesis, keystore)
  {
    var current := state;
    var saved := store.LoadState();
    if saved.Some? {
      current := saved.value;
      var hydrated := HydrateState(current, genesis, keystore);
      if hydrated.Rejected? {
        return Err(hydrated.error);
      }
    }
    var keyed := HydrateAccountCreatePubKeys(current, list);
    if keyed.Rejected? {
      return Err(keyed.error);
    }
    var valid := ValidateChain(list, genesis, keystore, current.taxSplit);
    if valid.Rejected? {
      return Err(valid.error);
    }
    return Ok(current);
  }

  ghost predicate Replays(list: seq<Block>, genesis: Genesis, keystore: Keystore)
    requires list != []
  {
    exists taxes :: InitialLedger(genesis, keystore, taxes).Ok?
                    && Replay(list, InitialLedger(genesis, keystore, taxes).value).Ok?
  }

  /** First start on an empty store: the genesis block, then the state, each in its own transaction. */
  method FirstStart(genesis: Genesis, store: Store, state: State, blockIo: bool, stateIo: bool)
    returns (r: Result<Blockchain>)
    requires genesis.validators != [] && store.Valid() && store.blocks == map[]
    modifies store
    ensures r.Ok? <==> blockIo && stateIo
    ensures r.Ok? ==> fresh(r.value) && r.value.Valid() && r.value.store == store && r.value.state == state
                      && r.value.blocks == [GenesisBlock(genesis)] && r.value.genesis == genesis
                      && r.value.Live(state.View())
    ensures old(store.state) == None ==>
              Durable(store.OnDisk(), if blockIo then [GenesisBlock(genesis)] else [], genesis, state.View())
  {
    var block := GenesisBlock(genesis);
    assert Prefix([block]) == map[0 := block];
    var saved := store.SaveBlock(block, blockIo);
    if saved.Rejected? {
      return Err(saved.error);
    }
    saved := store.SaveState(state, stateIo);
    if saved.Rejected? {
      return Err(saved.error);
    }
    var indexes := RebuildIndexes([block]);
    var bc := new Blockchain(genesis, store, state, [block], indexes);
    return Ok(bc);
  }

  /** `New`: on an empty store a first start; otherwise the stored chain in height order with rebuilt indexes and
      the ledger that Boot specifies, or an error that leaves the store alone. */
  method Open(genesis: Genesis, store: Store, state: State, keystore: Keystore, blockIo: bool, stateIo: bool)
    returns (r: Result<Blockchain>, ghost list: seq<Block>)
    requires genesis.validators != [] && store.Valid()
    modifies store, state`validators, state`keys
    ensures IsListing(list, old(store.blocks))
    ensures r.Ok? ==> fresh(r.value) && r.value.store == store && r.value.genesis == genesis
    ensures list == [] && r.Ok? ==>
              && r.value.Valid() && r.value.blocks == [GenesisBlock(genesis)]
              && Hydrate(old(state.View()), genesis, keystore) == Ok(r.value.state.View())
              && r.value.Live(r.value.state.View())
    ensures var first := Hydrate(old(state.View()), genesis, keystore);
            list == [] && old(store.state) == None ==>
              if first.Err? then r == Err(first.error) && store.OnDisk() == old(store.OnDisk())
              else (r.Ok? <==> blockIo && stateIo)
                   && Durable(store.OnDisk(), if blockIo then [GenesisBlock(genesis)] else [], genesis, first.value)
    ensures list != [] ==>
              && store.OnDisk() == old(store.OnDisk())
              && var boot := Boot(list, store.state, old(state.View()), genesis, keystore);
                 if r.Ok? then r.value.blocks == list && boot == Ok(r.value.state.View()) else boot == Err(r.error)
    ensures list != [] && r.Ok? && list[0].height == 0 ==> r.value.Valid()
  {
    var hydrated := HydrateState(state, genesis, keystore);
    var blocks := store.LoadBlocks();
    list := blocks;
    if hydrated.Rejected? {
      return Err(hydrated.error), list;
    }
    if |blocks| == 0 {
      EmptyListing(store.blocks);
      r := FirstStart(genesis, store, state, blockIo, stateIo);
      return;
    }
    var indexes := RebuildIndexes(blocks);
    var ledger := LoadLedger(blocks, genesis, store, state, keystore);
    if ledger.Err? {
      return Err(ledger.error), list;
    }
    if list[0].height == 0 {
      ReplayedStartsAtZero(list, genesis, keystore);
    }
    var bc := new Blockchain(genesis, store, ledger.value, blocks, indexes);
    return Ok(bc), list;
  }

  /** A chain opened on a store that was durable under whatever keystore came before is live from the ledger it was
      opened with. */
  lemma OpenedIsLive(bc: Blockchain, genesis: Genesis, earlier: Keystore, keystore: Keystore, taxes: TaxTable)
    requires genesis.validators != [] && bc.genesis == genesis && bc.blocks != []
    requires InitialLedger(genesis, earlier, taxes).Ok? && InitialLedger(genesis, keystore, taxes).Ok?
    requires Durable(bc.store.OnDisk(), bc.blocks, genesis, InitialLedger(genesis, earlier, taxes).value)
    requires Boot(bc.blocks, bc.store.state, InitialLedger(genesis, keystore, taxes).value, genesis, keystore)
             == Ok(bc.state.View())
    ensures bc.Live(InitialLedger(genesis, keystore, taxes).value)
  {
    hide Boot, InitialLedger, CheckBlock;
    RestartRebases(bc.store.OnDisk(), bc.blocks, genesis, earlier, keystore, taxes);
  }

  lemma ReplayedStartsAtZero(list: seq<Block>, genesis: Genesis, keystore: Keystore)
    requires list != [] && list[0].height == 0 && Replays(list, genesis, keystore)
    ensures forall i :: 0 <= i < |list| ==> list[i].height == i
  {
    var taxes :| InitialLedger(genesis, keystore, taxes).Ok?
                 && Replay(list, InitialLedger(genesis, keystore, taxes).value).Ok?;
    AcceptedHeights(list, InitialLedger(genesis, keystore, taxes).value);
  }

  lemma EmptyListing(blocks: map<int, Block>)
    requires KeyedByHeight(blocks) && IsListing([], blocks)
    ensures blocks == map[]
  {
    var none: seq<Block> := [];
    assert forall h :: h in blocks ==> blocks[h] in none;
  }
}
