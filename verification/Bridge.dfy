/** The bridge of `internal/p2p/bridge.go`: pools, chain and producer put together. */
module Bridge {
  import opened Domain
  import opened LedgerRules
  import opened LedgerEffects
  import opened LedgerState
  import opened Mempool
  import opened Admission
  import opened Bootstrap
  import opened Store
  import opened ChainRules
  import opened Chain
  import opened Production
  import opened Sync

  /** The pools after the transactions of a block have left them. */
  function WithoutBlock(q: Queues, b: Block): Queues {
    Queues(Without(q.payments, IdSet(IdsOf(b.payments, PaymentId)), PaymentId),
           Without(q.creates, IdSet(IdsOf(b.creates, CreateId)), CreateId),
           Without(q.closes, IdSet(IdsOf(b.closes, CloseId)), CloseId))
  }

  function WithoutBlocks(q: Queues, blocks: seq<Block>): Queues {
    if blocks == [] then q else WithoutBlock(WithoutBlocks(q, blocks[..|blocks| - 1]), blocks[|blocks| - 1])
  }

  lemma WithoutMore<T>(pending: seq<T>, first: seq<TxID>, second: seq<TxID>, idOf: T -> TxID)
    ensures Without(Without(pending, IdSet(first), idOf), IdSet(second), idOf)
            == Without(pending, IdSet(first + second), idOf)
  {
    WithoutTwice(pending, IdSet(first), IdSet(second), idOf);
    assert IdSet(first + second) == IdSet(first) + IdSet(second);
  }

  /** Block by block or at once: what stays are the entries whose id occurs in none of the blocks. */
  lemma {:induction false} PaymentsLeaveAtOnce(q: Queues, blocks: seq<Block>)
    ensures WithoutBlocks(q, blocks).payments
            == Without(q.payments, IdSet(IdsOf(AllPayments(blocks), PaymentId)), PaymentId)
  {
    if blocks == [] {
      WithoutNone(q.payments, {}, PaymentId);
      assert IdSet(IdsOf([], PaymentId)) == {};
    } else {
      var init, b := blocks[..|blocks| - 1], blocks[|blocks| - 1];
      PaymentsLeaveAtOnce(q, init);
      WithoutMore(q.payments, IdsOf(AllPayments(init), PaymentId), IdsOf(b.payments, PaymentId), PaymentId);
      assert IdsOf(AllPayments(init) + b.payments, PaymentId)
             == IdsOf(AllPayments(init), PaymentId) + IdsOf(b.payments, PaymentId);
    }
  }

  lemma {:induction false} CreatesLeaveAtOnce(q: Queues, blocks: seq<Block>)
    ensures WithoutBlocks(q, blocks).creates == Without(q.creates, IdSet(IdsOf(AllCreates(blocks), CreateId)), CreateId)
  {
    if blocks == [] {
      WithoutNone(q.creates, {}, CreateId);
      assert IdSet(IdsOf([], CreateId)) == {};
    } else {
      var init, b := blocks[..|blocks| - 1], blocks[|blocks| - 1];
      CreatesLeaveAtOnce(q, init);
      WithoutMore(q.creates, IdsOf(AllCreates(init), CreateId), IdsOf(b.creates, CreateId), CreateId);
      assert IdsOf(AllCreates(init) + b.creates, CreateId)
             == IdsOf(AllCreates(init), CreateId) + IdsOf(b.creates, CreateId);
    }
  }

  lemma {:induction false} ClosesLeaveAtOnce(q: Queues, blocks: seq<Block>)
    ensures WithoutBlocks(q, blocks).closes == Without(q.closes, IdSet(IdsOf(AllCloses(blocks), CloseId)), CloseId)
  {
    if blocks == [] {
      WithoutNone(q.closes, {}, CloseId);
      assert IdSet(IdsOf([], CloseId)) == {};
    } else {
      var init, b := blocks[..|blocks| - 1], blocks[|blocks| - 1];
      ClosesLeaveAtOnce(q, init);
      WithoutMore(q.closes, IdsOf(AllCloses(init), CloseId), IdsOf(b.closes, CloseId), CloseId);
      assert IdsOf(AllCloses(init) + b.closes, CloseId)
             == IdsOf(AllCloses(init), CloseId) + IdsOf(b.closes, CloseId);
    }
  }

  lemma WithoutBlocksSnoc(q: Queues, blocks: seq<Block>, b: Block)
    ensures WithoutBlocks(q, blocks + [b]) == WithoutBlock(WithoutBlocks(q, blocks), b)
  {
    assert (blocks + [b])[..|blocks|] == blocks;
  }

  // What one received block, and a received batch, take out of the pools.

  function WithoutReceived(b: Block, ioOk: bool, local: Replica, q: Queues): Queues
    requires local.chain != []
  {
    if Receive(b, ioOk, local).replica.chain == local.chain then q else WithoutBlock(q, b)
  }

  function StillWaiting(batch: seq<Block>, io: nat -> bool, local: Replica, q: Queues): Queues
    requires local.chain != []
  {
    if batch == [] then q else
      var init, n := batch[..|batch| - 1], |batch| - 1;
      var before, left := ReceiveAll(init, io, local), StillWaiting(init, io, local, q);
      if before.outcome.Rejected? then left else WithoutReceived(batch[n], io(n), before.replica, left)
  }

  lemma StillWaitingSnoc(batch: seq<Block>, i: nat, io: nat -> bool, local: Replica, q: Queues)
    requires local.chain != [] && i < |batch| && ReceiveAll(batch[..i], io, local).outcome.Accepted?
    ensures StillWaiting(batch[..i + 1], io, local, q)
            == WithoutReceived(batch[i], io(i), ReceiveAll(batch[..i], io, local).replica,
                               StillWaiting(batch[..i], io, local, q))
  {
    assert batch[..i + 1][..i] == batch[..i];
  }

  lemma {:induction false} StillWaitingSticks(batch: seq<Block>, io: nat -> bool, local: Replica, q: Queues, n: nat)
    requires local.chain != [] && n <= |batch| && ReceiveAll(batch[..n], io, local).outcome.Rejected?
    ensures StillWaiting(batch, io, local, q) == StillWaiting(batch[..n], io, local, q)
    decreases |batch|
  {
    if n == |batch| {
      assert batch[..n] == batch;
    } else {
      var init := batch[..|batch| - 1];
      assert init[..n] == batch[..n];
      StillWaitingSticks(init, io, local, q, n);
      ReceiveErrorSticks(init, io, local, n);
    }
  }

  lemma ReceivedLeaves(b: Block, ioOk: bool, r: Replica, start: nat, q: Queues)
    requires start <= |r.chain| && r.chain != []
    ensures WithoutReceived(b, ioOk, r, WithoutBlocks(q, r.chain[start..]))
            == WithoutBlocks(q, Receive(b, ioOk, r).replica.chain[start..])
  {
    var after := Receive(b, ioOk, r).replica.chain;
    if after != r.chain {
      assert after[start..] == r.chain[start..] + [b];
      WithoutBlocksSnoc(q, r.chain[start..], b);
    }
  }

  /** Exactly the transactions of the blocks a batch made us append leave the pools. */
  lemma {:induction false} AppendedLeavePools(batch: seq<Block>, io: nat -> bool, local: Replica, q: Queues)
    requires local.chain != []
    ensures StillWaiting(batch, io, local, q)
            == WithoutBlocks(q, ReceiveAll(batch, io, local).replica.chain[|local.chain|..])
  {
    if batch != [] {
      var init, n := batch[..|batch| - 1], |batch| - 1;
      AppendedLeavePools(init, io, local, q);
      ReceivedLeaves(batch[n], io(n), ReceiveAll(init, io, local).replica, |local.chain|, q);
    }
  }

  /** What becomes of one slot: a block, if and only if something could be picked, the ledger registers the producer's
      key and the store works. The block is sealed over exactly the picked operations, leads exactly to the scratch
      ledger, and takes its transactions out of the pools; the dropped ones leave in any case. */
  ghost predicate SlotOutcome(before: Replica, q: Queues, after: Replica, left: Queues, block: Option<Block>,
                              picked: Picked, trace: Trace, max: nat, ioOk: bool,
                              validator: string, key: PrivateKey, now: Timestamp)
    requires before.chain != []
  {
    && Selects(q, max, before.ledger, picked, trace)
    && (block.Some? <==> 0 < |PickedOps(picked)| && ioOk && Registered(validator, key, before.ledger))
    && (block.None? ==> after == before && left == WithoutDropped(q, picked))
    && (block.Some? ==>
          && block.value
             == SealedBlock(|before.chain|, before.chain[|before.chain| - 1],
                            picked.payments, picked.creates, picked.closes, validator, key, now)
          && after == Replica(before.chain + [block.value], trace.scratch)
          && left == WithoutBlock(WithoutDropped(q, picked), block.value))
  }

  /** No id waits twice in its pool. */
  ghost predicate DistinctQueues(q: Queues) {
    && Distinct(IdsOf(q.payments, PaymentId)) && Distinct(IdsOf(q.creates, CreateId))
    && Distinct(IdsOf(q.closes, CloseId))
  }

  /** What trace left untried. */
  function Untried(q: Queues, trace: Trace): Queues
    requires trace.payments <= |q.payments| && trace.creates <= |q.creates| && trace.closes <= |q.closes|
  {
    Queues(q.payments[trace.payments..], q.creates[trace.creates..], q.closes[trace.closes..])
  }

  lemma OpsAsQueues(payments: seq<Payment>, creates: seq<AccountCreate>, closes: seq<AccountClose>)
    ensures AsOps(payments, PaymentId, PayOps(payments)) && AsOps(creates, CreateId, CreateOps(creates))
    ensures AsOps(closes, CloseId, CloseOps(closes))
  {
    assert OpIds(PayOps(payments)) == IdsOf(payments, PaymentId);
    assert OpIds(CreateOps(creates)) == IdsOf(creates, CreateId);
    assert OpIds(CloseOps(closes)) == IdsOf(closes, CloseId);
  }

  ghost predicate LeavesUntried(q: Queues, trace: Trace, left: Queues) {
    && trace.payments <= |q.payments| && trace.creates <= |q.creates| && trace.closes <= |q.closes|
    && left == Untried(q, trace)
  }

  /** Once the dropped and the picked transactions have left the pools, exactly what selection did not try is left. */
  lemma SelectionLeavesUntried(q: Queues, max: nat, l: Ledger, picked: Picked, trace: Trace, b: Block)
    requires DistinctQueues(q) && Selects(q, max, l, picked, trace)
    requires b.payments == picked.payments && b.creates == picked.creates && b.closes == picked.closes
    ensures LeavesUntried(q, trace, WithoutBlock(WithoutDropped(q, picked), b))
  {
    hide Picks, Without, Distinct, AsOps;
    OpsAsQueues(q.payments, q.creates, q.closes);
    OpsAsQueues(picked.payments, picked.creates, picked.closes);
    PickLeavesUntried(q.creates, CreateId, CreateOps(q.creates), trace.creates, max, l,
                      picked.creates, CreateOps(picked.creates), picked.dropCreates, trace.created);
    PickLeavesUntried(q.payments, PaymentId, PayOps(q.payments), trace.payments, max - |picked.creates|, trace.created,
                      picked.payments, PayOps(picked.payments), picked.dropPayments, trace.paid);
    PickLeavesUntried(q.closes, CloseId, CloseOps(q.closes), trace.closes,
                      max - |picked.creates| - |picked.payments|, trace.paid,
                      picked.closes, CloseOps(picked.closes), picked.dropCloses, trace.scratch);
  }

  /** Selection drops from the pools exactly what it tried and could not apply when its turn came. */
  lemma SelectionDropsFailing(q: Queues, max: nat, l: Ledger, picked: Picked, trace: Trace)
    requires DistinctQueues(q) && Selects(q, max, l, picked, trace)
    ensures var left := WithoutDropped(q, picked);
            && (forall i :: 0 <= i < |q.creates| ==>
                  (q.creates[i] in left.creates <==> !(i < trace.creates && FailsAt(CreateOps(q.creates), l, i))))
            && (forall i :: 0 <= i < |q.payments| ==>
                  (q.payments[i] in left.payments <==>
                   !(i < trace.payments && FailsAt(PayOps(q.payments), trace.created, i))))
            && (forall i :: 0 <= i < |q.closes| ==>
                  (q.closes[i] in left.closes <==> !(i < trace.closes && FailsAt(CloseOps(q.closes), trace.paid, i))))
  {
    hide Picks, Without, Distinct, AsOps, FailsAt;
    OpsAsQueues(q.payments, q.creates, q.closes);
    forall i | 0 <= i < |q.creates|
      ensures q.creates[i] in WithoutDropped(q, picked).creates <==>
              !(i < trace.creates && FailsAt(CreateOps(q.creates), l, i))
    {
      PickDropsFailing(q.creates, CreateId, CreateOps(q.creates), trace.creates, max, l,
                       CreateOps(picked.creates), picked.dropCreates, trace.created, i);
    }
    forall i | 0 <= i < |q.payments|
      ensures q.payments[i] in WithoutDropped(q, picked).payments <==>
              !(i < trace.payments && FailsAt(PayOps(q.payments), trace.created, i))
    {
      PickDropsFailing(q.payments, PaymentId, PayOps(q.payments), trace.payments, max - |picked.creates|, trace.created,
                       PayOps(picked.payments), picked.dropPayments, trace.paid, i);
    }
    forall i | 0 <= i < |q.closes|
      ensures q.closes[i] in WithoutDropped(q, picked).closes <==>
              !(i < trace.closes && FailsAt(CloseOps(q.closes), trace.paid, i))
    {
      PickDropsFailing(q.closes, CloseId, CloseOps(q.closes), trace.closes,
                       max - |picked.creates| - |picked.payments|, trace.paid,
                       CloseOps(picked.closes), picked.dropCloses, trace.scratch, i);
    }
  }

  /** Below the cap everything was tried. */
  lemma BelowCapTriesAll(q: Queues, max: nat, l: Ledger, picked: Picked, trace: Trace)
    requires Selects(q, max, l, picked, trace)
    ensures |PickedOps(picked)| <= max
    ensures |PickedOps(picked)| < max ==>
              trace.payments == |q.payments| && trace.creates == |q.creates| && trace.closes == |q.closes|
  {
    hide Attempt;
    SelectionReplays(q, max, l, picked, trace);
  }

  /** A slot that makes a block keeps to the cap and leaves in the pools exactly what it did not try: nothing, if it
      stayed below the cap. One in which nothing could be picked leaves nothing either. */
  lemma SlotLeavesUntried(before: Replica, q: Queues, after: Replica, left: Queues, block: Option<Block>,
                          picked: Picked, trace: Trace, max: nat, ioOk: bool,
                          validator: string, key: PrivateKey, now: Timestamp)
    requires before.chain != [] && DistinctQueues(q) && 0 < max
    requires SlotOutcome(before, q, after, left, block, picked, trace, max, ioOk, validator, key, now)
    ensures block.Some? ==>
              var n := |block.value.payments| + |block.value.creates| + |block.value.closes|;
              && 0 < n <= max && LeavesUntried(q, trace, left) && (n < max ==> left == Queues([], [], []))
    ensures PickedOps(picked) == [] ==> left == Queues([], [], [])
  {
    hide Selects, SealedBlock, WithoutBlock, WithoutDropped, DistinctQueues;
    BelowCapTriesAll(q, max, before.ledger, picked, trace);
    var prev := before.chain[|before.chain| - 1];
    var b := SealedBlock(|before.chain|, prev, picked.payments, picked.creates, picked.closes, validator, key, now);
    SealedBlockCarries(|before.chain|, prev, picked.payments, picked.creates, picked.closes, validator, key, now);
    SelectionLeavesUntried(q, max, before.ledger, picked, trace, b);
    if PickedOps(picked) == [] {
      NothingLeaves(WithoutDropped(q, picked), b);
    }
  }

  lemma NothingLeaves(q: Queues, b: Block)
    requires b.payments == [] && b.creates == [] && b.closes == []
    ensures WithoutBlock(q, b) == q
  {
    WithoutNone(q.payments, IdSet(IdsOf(b.payments, PaymentId)), PaymentId);
    WithoutNone(q.creates, IdSet(IdsOf(b.creates, CreateId)), CreateId);
    WithoutNone(q.closes, IdSet(IdsOf(b.closes, CloseId)), CloseId);
  }

  /** Why a slot in which something was picked yields no block. */
  function SlotFailure(picked: Picked, ioOk: bool, validator: string, key: PrivateKey, l: Ledger): Option<Error> {
    var sealed := SealCheck(validator, key, l);
    if PickedOps(picked) == [] then None
    else if sealed.Rejected? then Some(sealed.error)
    else if !ioOk then Some(StoreFailure)
    else None
  }

  /** The block of a slot is the next block of the chain, with the scratch ledger as its ledger. */
  lemma SlotExtendsChain(before: Replica, origin: Ledger, q: Queues, after: Replica, left: Queues, b: Block,
                         picked: Picked, trace: Trace, max: nat, validator: string, key: PrivateKey, now: Timestamp)
    requires WellFormed(before, origin)
    requires SlotOutcome(before, q, after, left, Some(b), picked, trace, max, true, validator, key, now)
    ensures Receive(b, true, before) == BatchResult(after, Accepted)
  {
    AcceptedHeights(before.chain, origin);
    ProducedBlockIsAccepted(q, max, before.ledger, picked, trace, before.chain[|before.chain| - 1],
                            validator, key, now);
  }

  class Bridge {
    const chain: Blockchain
    const pool: Pool
    const createPool: OrderedPool<AccountCreate>
    const closePool: OrderedPool<AccountClose>
    const producer: Option<Producer>

    ghost predicate Wired() {
      && createPool.idOf == CreateId && closePool.idOf == CloseId
      && createPool as object != closePool as object
      && (producer.Some? ==> producer.value.genesis == chain.genesis && chain.genesis.validators != [])
    }

    ghost predicate Valid()
      reads chain, chain.store, pool, createPool, closePool
    {
      Wired() && chain.Valid() && pool.Valid() && createPool.Valid() && closePool.Valid()
    }

    ghost function Waiting(): Queues
      reads pool, createPool, closePool
    {
      Queues(pool.Waiting(), createPool.Waiting(), closePool.Waiting())
    }

    ghost function Local(): Replica
      reads chain, chain.state
    {
      Replica(chain.blocks, chain.state.View())
    }

    constructor (chain: Blockchain, pool: Pool, createPool: OrderedPool<AccountCreate>,
                 closePool: OrderedPool<AccountClose>, producer: Option<Producer>)
      ensures this.chain == chain && this.pool == pool && this.createPool == createPool
      ensures this.closePool == closePool && this.producer == producer
    {
      this.chain, this.pool, this.createPool, this.closePool := chain, pool, createPool, closePool;
      this.producer := producer;
    }

    // ---- Nested commits: each pool runs the next one under its lock and releases only if that succeeded ----

    method CommitCloses(b: Block, ioOk: bool) returns (r: Outcome)
      requires Valid()
      modifies chain, chain.store, closePool
      ensures Valid()
      ensures chain.state == old(chain.state) || fresh(chain.state)
      ensures r == AppendOutcome(old(chain.Next(b)), ioOk)
      ensures r.Rejected? ==> unchanged(chain) && unchanged(chain.store) && unchanged(closePool)
      ensures r.Accepted? ==>
                && old(chain.Next(b)) == Ok(chain.state.View())
                && chain.blocks == old(chain.blocks) + [b]
                && chain.store.OnDisk()
                   == Disk(old(chain.store.blocks)[b.height := b], Some(Project(chain.state.View())))
                && closePool.Waiting() == Without(old(closePool.Waiting()), IdSet(IdsOf(b.closes, CloseId)), CloseId)
      ensures forall first: Ledger :: old(chain.Live(first)) ==> chain.Live(first)
    {
      r := chain.AppendBlock(b, ioOk);
      if r.Rejected? {
        return;
      }
      closePool.Remove(IdsOf(b.closes, CloseId));
      assert chain.Valid() && pool.Valid() && createPool.Valid();
    }

    method CommitCreates(b: Block, ioOk: bool) returns (r: Outcome)
      requires Valid()
      modifies chain, chain.store, createPool, closePool
      ensures Valid()
      ensures chain.state == old(chain.state) || fresh(chain.state)
      ensures r == AppendOutcome(old(chain.Next(b)), ioOk)
      ensures r.Rejected? ==>
                unchanged(chain) && unchanged(chain.store) && unchanged(createPool) && unchanged(closePool)
      ensures r.Accepted? ==>
                && old(chain.Next(b)) == Ok(chain.state.View())
                && chain.blocks == old(chain.blocks) + [b]
                && chain.store.OnDisk()
                   == Disk(old(chain.store.blocks)[b.height := b], Some(Project(chain.state.View())))
                && closePool.Waiting() == Without(old(closePool.Waiting()), IdSet(IdsOf(b.closes, CloseId)), CloseId)
                && createPool.Waiting()
                   == Without(old(createPool.Waiting()), IdSet(IdsOf(b.creates, CreateId)), CreateId)
      ensures forall first: Ledger :: old(chain.Live(first)) ==> chain.Live(first)
    {
      r := CommitCloses(b, ioOk);
      if r.Rejected? {
        return;
      }
      createPool.Remove(IdsOf(b.creates, CreateId));
      assert chain.Valid() && pool.Valid() && closePool.Valid();
    }

    /** All or nothing: the block joins the chain, its ledger, indexes and durable record with it, and exactly its
        transactions leave the three pools, or chain, store, pools and reservations are all as they were. */
    method Commit(b: Block, ioOk: bool) returns (r: Outcome)
      requires Valid()
      modifies chain, chain.store, pool, createPool, closePool
      ensures Valid()
      ensures chain.state == old(chain.state) || fresh(chain.state)
      ensures r == AppendOutcome(old(chain.Next(b)), ioOk)
      ensures r.Rejected? ==> unchanged(chain) && unchanged(chain.store)
                              && unchanged(pool) && unchanged(createPool) && unchanged(closePool)
      ensures r.Accepted? ==>
                && old(chain.Next(b)) == Ok(chain.state.View())
                && chain.blocks == old(chain.blocks) + [b]
                && chain.store.OnDisk()
                   == Disk(old(chain.store.blocks)[b.height := b], Some(Project(chain.state.View())))
                && Waiting() == WithoutBlock(old(Waiting()), b)
      ensures old(pool.Accounts()) ==> pool.Accounts()
      ensures forall first: Ledger :: old(chain.Live(first)) ==> chain.Live(first)
    {
      r := CommitCreates(b, ioOk);
      if r.Rejected? {
        return;
      }
      pool.Remove(IdsOf(b.payments, PaymentId));
      assert chain.Valid() && createPool.Valid() && closePool.Valid();
    }

    // ---- Transactions from peers: the pool decides under its own lock, asking the chain ----

    method OnNewTransaction(tx: Payment) returns (r: Outcome)
      requires Valid()
      modifies pool
      ensures Valid()
      ensures r == if tx.id in old(pool.items) then Rejected(AlreadyPending(tx.id))
                   else CheckAdmit(tx, chain.state.View(), old(pool.ReservedFor(tx.payer.id)))
      ensures Waiting()
              == old(Waiting()).(payments := AdmitTo(old(pool.Waiting()), tx, PaymentId,
                                                     CheckAdmit(tx, chain.state.View(),
                                                                old(pool.ReservedFor(tx.payer.id)))))
      ensures old(pool.Accounts()) ==> pool.Accounts()
    {
      hide CheckAdmit, Pending, IndexesOf, Admissible, CheckPayment;
      var checked := chain.ValidateAdmit(tx, pool.ReservedFor(tx.payer.id));
      AdmittedIff(tx, chain.state.View(), pool.ReservedFor(tx.payer.id));
      PaymentAcceptedIff(tx, chain.state.View());
      PendingHas(pool.order, pool.items, PaymentId, tx.id);
      r := pool.TryAdd(tx, Some(_ => checked));
    }

    method OnNewAccountCreate(tx: AccountCreate) returns (r: Outcome)
      requires Valid()
      modifies createPool
      ensures Valid()
      ensures r == if tx.id in old(createPool.items) then Rejected(AlreadyPending(tx.id))
                   else CheckCreate(tx, chain.state.View())
      ensures Waiting()
              == old(Waiting()).(creates := AdmitTo(old(createPool.Waiting()), tx, CreateId,
                                                    CheckCreate(tx, chain.state.View())))
    {
      hide CheckCreate, Pending, IdsOf, IndexesOf;
      var scratch := chain.Snapshot();
      var checked := ValidateAccountCreate(tx, scratch);
      PendingHas(createPool.order, createPool.items, CreateId, tx.id);
      r := createPool.TryAdd(tx, Some(checked));
      assert chain.Valid() && closePool.Valid();
    }

    method OnNewAccountClose(tx: AccountClose) returns (r: Outcome)
      requires Valid()
      modifies closePool
      ensures Valid()
      ensures r == if tx.id in old(closePool.items) then Rejected(AlreadyPending(tx.id))
                   else CheckClose(tx, chain.state.View())
      ensures Waiting()
              == old(Waiting()).(closes := AdmitTo(old(closePool.Waiting()), tx, CloseId,
                                                   CheckClose(tx, chain.state.View())))
    {
      hide CheckClose, Pending, IdsOf, IndexesOf;
      var scratch := chain.Snapshot();
      var checked := ValidateAccountClose(tx, scratch);
      PendingHas(closePool.order, closePool.items, CloseId, tx.id);
      r := closePool.TryAdd(tx, Some(checked));
      assert chain.Valid() && createPool.Valid();
    }

    // ---- Blocks from peers ----

    // The body of the applyBlocks loop.
    method ApplyBlock(b: Block, ioOk: bool) returns (r: Outcome)
      requires Valid()
      modifies chain, chain.store, pool, createPool, closePool
      ensures Valid()
      ensures chain.state == old(chain.state) || fresh(chain.state)
      ensures BatchResult(Local(), r) == Receive(b, ioOk, old(Local()))
      ensures Waiting() == WithoutReceived(b, ioOk, old(Local()), old(Waiting()))
      ensures old(pool.Accounts()) ==> pool.Accounts()
      ensures forall first: Ledger :: old(chain.Live(first)) ==> chain.Live(first)
    {
      var height := chain.Height();
      if b.height <= height {
        return Accepted;
      }
      if b.height > height + 1 {
        return Rejected(NeedSync(b.height, height));
      }
      r := Commit(b, ioOk);
    }

    /** A batch from a peer does to chain and ledger exactly what ReceiveAll says; whatever was appended has left
        the pools, and nothing else has. */
    method ApplyBlocks(batch: seq<Block>, io: nat -> bool) returns (r: Outcome)
      requires Valid()
      modifies chain, chain.store, pool, createPool, closePool
      ensures Valid()
      ensures BatchResult(Local(), r) == ReceiveAll(batch, io, old(Local()))
      ensures Waiting() == StillWaiting(batch, io, old(Local()), old(Waiting()))
      ensures old(pool.Accounts()) ==> pool.Accounts()
      ensures forall first: Ledger :: old(chain.Live(first)) ==> chain.Live(first)
    {
      ghost var local, queues := Local(), Waiting();
      for i := 0 to |batch|
        invariant Valid()
        invariant chain.state == old(chain.state) || fresh(chain.state)
        invariant ReceiveAll(batch[..i], io, local) == BatchResult(Local(), Accepted)
        invariant Waiting() == StillWaiting(batch[..i], io, local, queues)
        invariant forall first: Ledger :: old(chain.Live(first)) ==> chain.Live(first)
        invariant old(pool.Accounts()) ==> pool.Accounts()
      {
        ReceiveAllSnoc(batch, i, io, local);
        StillWaitingSnoc(batch, i, io, local, queues);
        r := ApplyBlock(batch[i], io(i));
        if r.Rejected? {
          ReceiveErrorSticks(batch, io, local, i + 1);
          StillWaitingSticks(batch, io, local, queues, i + 1);
          return;
        }
      }
      assert batch[..|batch|] == batch;
      return Accepted;
    }

    // ---- Blocks of our own ----

    // Each stage peeks at a pool, tries what it finds on the scratch state, and drops what failed.

    method PickCreates(state: State, max: int)
      returns (chosen: seq<AccountCreate>, dropIds: seq<TxID>, ghost n: nat)
      requires createPool.Valid()
      modifies state, createPool
      ensures createPool.Valid()
      ensures Picks(CreateOps(old(createPool.Waiting())), n, max, old(state.View()), CreateOps(chosen), dropIds,
                    state.View())
      ensures createPool.Waiting() == Without(old(createPool.Waiting()), IdSet(dropIds), createPool.idOf)
    {
      var queue := createPool.Peek(0);
      chosen, dropIds, n := SelectCreates(queue, state, max);
      if |dropIds| > 0 {
        createPool.Remove(dropIds);
      } else {
        WithoutNone(queue, IdSet(dropIds), createPool.idOf);
      }
    }

    method PickPayments(state: State, max: int) returns (chosen: seq<Payment>, dropIds: seq<TxID>, ghost n: nat)
      requires pool.Valid()
      modifies state, pool
      ensures pool.Valid()
      ensures Picks(PayOps(old(pool.Waiting())), n, max, old(state.View()), PayOps(chosen), dropIds, state.View())
      ensures pool.Waiting() == Without(old(pool.Waiting()), IdSet(dropIds), PaymentId)
      ensures old(pool.Accounts()) ==> pool.Accounts()
    {
      var queue := pool.Peek(0);
      chosen, dropIds, n := SelectPayments(queue, state, max);
      if |dropIds| > 0 {
        pool.Remove(dropIds);
      } else {
        WithoutNone(queue, IdSet(dropIds), PaymentId);
      }
    }

    method PickCloses(state: State, max: int) returns (chosen: seq<AccountClose>, dropIds: seq<TxID>, ghost n: nat)
      requires closePool.Valid()
      modifies state, closePool
      ensures closePool.Valid()
      ensures Picks(CloseOps(old(closePool.Waiting())), n, max, old(state.View()), CloseOps(chosen), dropIds,
                    state.View())
      ensures closePool.Waiting() == Without(old(closePool.Waiting()), IdSet(dropIds), closePool.idOf)
    {
      var queue := closePool.Peek(0);
      chosen, dropIds, n := SelectCloses(queue, state, max);
      if |dropIds| > 0 {
        closePool.Remove(dropIds);
      } else {
        WithoutNone(queue, IdSet(dropIds), closePool.idOf);
      }
    }

    /** Picks creates, then payments, then closes, under one cap, and drops from the pools exactly what it tried
        and could not apply. */
    method SelectExecutable(max: nat) returns (picked: Picked, ghost trace: Trace)
      requires Valid()
      modifies pool, createPool, closePool
      ensures Valid()
      ensures Selects(old(Waiting()), max, old(chain.state.View()), picked, trace)
      ensures Waiting() == WithoutDropped(old(Waiting()), picked)
      ensures old(pool.Accounts()) ==> pool.Accounts()
    {
      hide Pending, Without, IndexesOf, Picks;
      var state := chain.Snapshot();
      var creates, dropCreates, payments, dropPayments, closes, dropCloses;
      ghost var nc, np, nx;
      creates, dropCreates, nc := PickCreates(state, max);
      ghost var created := state.View();
      payments, dropPayments, np := PickPayments(state, max - |creates|);
      ghost var paid := state.View();
      closes, dropCloses, nx := PickCloses(state, max - |creates| - |payments|);
      picked := Picked(creates, payments, closes, dropCreates, dropPayments, dropCloses);
      trace := Trace(nc, np, nx, created, paid, state.View());
    }

    // Seals what selection picked from q on the tip and commits it.
    method SealPicked(height: int, picked: Picked, now: Timestamp, ioOk: bool, ghost q: Queues, ghost trace: Trace)
      returns (r: Result<Block>)
      requires Valid() && MySlot() && height == |chain.blocks|
      requires Selects(q, BlockCap(chain.genesis), chain.state.View(), picked, trace)
      requires Waiting() == WithoutDropped(q, picked) && 0 < |PickedOps(picked)|
      modifies chain, chain.store, pool, createPool, closePool
      ensures Valid()
      ensures r.Err? ==> unchanged(chain) && unchanged(chain.store)
      ensures FailureOf(r)
              == SlotFailure(picked, ioOk, producer.value.validator, producer.value.key, old(Local()).ledger)
      ensures SlotOutcome(old(Local()), q, Local(), Waiting(), if r.Ok? then Some(r.value) else None, picked, trace,
                          BlockCap(chain.genesis), ioOk, producer.value.validator, producer.value.key, now)
      ensures old(pool.Accounts()) ==> pool.Accounts()
      ensures forall first: Ledger :: old(chain.Live(first)) ==> chain.Live(first)
    {
      hide Selects, CheckBlock, IndexesOf, Pending, Without;
      var prev := chain.LatestBlock();
      var block := producer.value.CreateBlock(height, prev, picked.payments, picked.creates, picked.closes, now);
      ProducedBlockIsAccepted(q, BlockCap(chain.genesis), chain.state.View(), picked, trace, prev,
                              producer.value.validator, producer.value.key, now);
      var committed := Commit(block.value, ioOk);
      if committed.Rejected? {
        return Err(committed.error);
      }
      return Ok(block.value);
    }

    method ProduceInSlot(height: int, now: Timestamp, ioOk: bool)
      returns (r: Result<Option<Block>>, ghost picked: Picked, ghost trace: Trace)
      requires Valid() && MySlot() && height == |chain.blocks|
      modifies chain, chain.store, pool, createPool, closePool
      ensures Valid()
      ensures !Produced(r) ==> unchanged(chain) && unchanged(chain.store)
      ensures FailureOf(r)
              == SlotFailure(picked, ioOk, producer.value.validator, producer.value.key, old(Local()).ledger)
      ensures SlotOutcome(old(Local()), old(Waiting()), Local(), Waiting(), if r.Ok? then r.value else None,
                          picked, trace, BlockCap(chain.genesis), ioOk,
                          producer.value.validator, producer.value.key, now)
      ensures old(pool.Accounts()) ==> pool.Accounts()
      ensures forall first: Ledger :: old(chain.Live(first)) ==> chain.Live(first)
    {
      ghost var q := Waiting();
      var body;
      body, trace := SelectExecutable(BlockCap(chain.genesis));
      picked := body;
      if |body.payments| == 0 && |body.creates| == 0 && |body.closes| == 0 {
        r := Ok(None);
        return;
      }
      var sealed := SealPicked(height, body, now, ioOk, q, trace);
      r := if sealed.Ok? then Ok(Some(sealed.value)) else Err(sealed.error);
    }

    lemma QueuesAreDistinct()
      requires Valid()
      ensures DistinctQueues(Waiting())
    {
      hide Pending, Distinct, IdsOf;
      PendingIds(pool.order, pool.items, PaymentId);
      PendingIds(createPool.order, createPool.items, CreateId);
      PendingIds(closePool.order, closePool.items, CloseId);
    }

    /** Produces at most one block, in this node's own slot and on its own tip. SlotOutcome says what comes of it, and
        SlotFailure when an error comes back and which; otherwise, without a block, nothing could be picked. A block
        holds at most the configured number of transactions, or 100 if none is configured, and leaves in the pools
        exactly what was not tried: nothing, if it holds fewer. */
    method ProduceBlockIfReady(now: Timestamp, ioOk: bool)
      returns (r: Result<Option<Block>>, ghost picked: Picked, ghost trace: Trace)
      requires Valid()
      modifies chain, chain.store, pool, createPool, closePool
      ensures Valid()
      ensures !Produced(r) ==> unchanged(chain) && unchanged(chain.store)
      ensures !old(MySlot()) ==> r == Ok(None) && Waiting() == old(Waiting())
      ensures old(MySlot()) ==>
                FailureOf(r)
                == SlotFailure(picked, ioOk, producer.value.validator, producer.value.key, old(Local()).ledger)
      ensures old(MySlot()) ==>
                SlotOutcome(old(Local()), old(Waiting()), Local(), Waiting(), if r.Ok? then r.value else None,
                            picked, trace, BlockCap(chain.genesis), ioOk,
                            producer.value.validator, producer.value.key, now)
      ensures Produced(r) ==>
                var b, limit := r.value.value, chain.genesis.maxTxsPerBlock;
                var n, most := |b.payments| + |b.creates| + |b.closes|, if 0 < limit then limit else 100;
                0 < n <= most && (n < most ==> Waiting() == Queues([], [], []))
      ensures Produced(r) ==> LeavesUntried(old(Waiting()), trace, Waiting())
      ensures old(MySlot()) && r == Ok(None) ==> Waiting() == Queues([], [], [])
      ensures old(pool.Accounts()) ==> pool.Accounts()
      ensures forall first: Ledger :: old(chain.Live(first)) ==> chain.Live(first)
    {
      hide Selects, SealedBlock, WithoutBlock, WithoutDropped, Pending, IndexesOf, Distinct, CheckBlock;
      var height := chain.Height();
      height := height + 1;
      if producer.None? || !producer.value.CanProduce(height) {
        ghost var l := chain.state.View();
        return Ok(None), Picked([], [], [], [], [], []), Trace(0, 0, 0, l, l, l);
      }
      QueuesAreDistinct();
      r, picked, trace := ProduceInSlot(height, now, ioOk);
      SlotLeavesUntried(old(Local()), old(Waiting()), Local(), Waiting(), if r.Ok? then r.value else None,
                        picked, trace, BlockCap(chain.genesis), ioOk,
                        producer.value.validator, producer.value.key, now);
    }

    /** Whether the next height is this node's to produce. */
    ghost predicate MySlot()
      requires Wired()
      reads chain
    {
      producer.Some? && producer.value.CanProduce(|chain.blocks|)
    }
  }

  function FailureOf<T>(r: Result<T>): Option<Error> { if r.Err? then Some(r.error) else None }

  predicate Produced(r: Result<Option<Block>>) { r.Ok? && r.value.Some? }

  function BlockCap(genesis: Genesis): nat {
    if genesis.maxTxsPerBlock <= 0 then 100 else genesis.maxTxsPerBlock
  }
}
