/** Block production: the producer of `internal/consensus/poa/producer.go` and the selection of what goes in. */
module Production {
  import opened Domain
  import opened Crypto
  import opened LedgerRules
  import opened LedgerState
  import opened Mempool
  import opened Bootstrap

  // ---------------------------------------------------------------------------------------------
  // Slots and keys
  // ---------------------------------------------------------------------------------------------

  /** The genesis entry a producer is created for is the first with its id. */
  function FirstValidator(validators: seq<ValidatorConfig>, id: string): Option<ValidatorConfig> {
    if validators == [] then None
    else if validators[0].id == id then Some(validators[0])
    else FirstValidator(validators[1..], id)
  }

  function CheckProducer(genesis: Genesis, id: string, keyText: KeyText<PrivateKey>): Result<PrivateKey> {
    var entry := FirstValidator(genesis.validators, id);
    if entry.None? then Err(ValidatorNotInGenesis(id))
    else if ParseKey(keyText).Err? then Err(ParseKey(keyText).error)
    else if ParseKey(entry.value.publicKey).Err? then Err(ParseKey(entry.value.publicKey).error)
    else if PublicOf(ParseKey(keyText).value) != ParseKey(entry.value.publicKey).value then Err(ProducerKeyMismatch)
    else ParseKey(keyText)
  }

  // Heights are never negative here, so Go's remainder and Dafny's agree.
  function SlotOwner(genesis: Genesis, height: int): string
    requires genesis.validators != [] && 0 <= height
  {
    genesis.validators[height % |genesis.validators|].id
  }

  /** The genesis entry the ledger verifies blocks with is the last with that id. */
  function LastValidator(validators: seq<ValidatorConfig>, id: string): Option<ValidatorConfig> {
    if validators == [] then None
    else if validators[|validators| - 1].id == id then Some(validators[|validators| - 1])
    else LastValidator(validators[..|validators| - 1], id)
  }

  predicate Registered(validator: string, key: PrivateKey, l: Ledger) {
    validator in l.validators && l.validators[validator] == PublicOf(key)
  }

  /** What the ledger makes of the producer's seal on the next block. */
  function SealCheck(validator: string, key: PrivateKey, l: Ledger): (r: Outcome)
    ensures r.Accepted? <==> Registered(validator, key, l)
  {
    if validator !in l.validators then Rejected(UnknownValidator(validator))
    else if l.validators[validator] != PublicOf(key) then Rejected(InvalidBlockSignature)
    else Accepted
  }

  lemma {:induction false} LastEntryRegisters(validators: seq<ValidatorConfig>, id: string)
    requires AddValidators(validators, map[]).Ok?
    ensures var table := AddValidators(validators, map[]).value;
            && (id in table <==> LastValidator(validators, id).Some?)
            && (id in table ==> ParseKey(LastValidator(validators, id).value.publicKey) == Ok(table[id]))
  {
    if validators != [] {
      LastEntryRegisters(validators[..|validators| - 1], id);
    }
  }

  lemma {:induction false} FirstIsListed(validators: seq<ValidatorConfig>, id: string)
    requires FirstValidator(validators, id).Some?
    ensures FirstValidator(validators, id).value in validators && FirstValidator(validators, id).value.id == id
  {
    if validators[0].id != id {
      FirstIsListed(validators[1..], id);
      assert forall v :: v in validators[1..] ==> v in validators;
    }
  }

  lemma {:induction false} LastIsListed(validators: seq<ValidatorConfig>, id: string, v: ValidatorConfig)
    requires v in validators && v.id == id
    ensures LastValidator(validators, id).Some?
    ensures LastValidator(validators, id).value in validators && LastValidator(validators, id).value.id == id
  {
    if validators[|validators| - 1].id != id {
      var init := validators[..|validators| - 1];
      assert validators == init + [validators[|validators| - 1]];
      LastIsListed(init, id, v);
    }
  }

  /** A producer that passed the start-up check is registered by the ledger, so that its blocks can be accepted, if
      and only if the last genesis entry with its id has the key of the first one. */
  lemma RegisteredIff(genesis: Genesis, id: string, keyText: KeyText<PrivateKey>, l: Ledger)
    requires GenesisValidators(genesis) == Ok(l.validators) && CheckProducer(genesis, id, keyText).Ok?
    ensures LastValidator(genesis.validators, id).Some?
    ensures Registered(id, CheckProducer(genesis, id, keyText).value, l) <==>
            ParseKey(LastValidator(genesis.validators, id).value.publicKey)
            == ParseKey(FirstValidator(genesis.validators, id).value.publicKey)
  {
    FirstIsListed(genesis.validators, id);
    LastIsListed(genesis.validators, id, FirstValidator(genesis.validators, id).value);
    LastEntryRegisters(genesis.validators, id);
  }

  /** In particular with distinct ids. */
  lemma DistinctIdsRegister(genesis: Genesis, id: string, keyText: KeyText<PrivateKey>, l: Ledger)
    requires forall i, j :: 0 <= i < j < |genesis.validators| ==> genesis.validators[i].id != genesis.validators[j].id
    requires GenesisValidators(genesis) == Ok(l.validators) && CheckProducer(genesis, id, keyText).Ok?
    ensures Registered(id, CheckProducer(genesis, id, keyText).value, l)
  {
    RegisteredIff(genesis, id, keyText, l);
    FirstIsListed(genesis.validators, id);
    LastIsListed(genesis.validators, id, FirstValidator(genesis.validators, id).value);
  }

  /** Two entries with one id and different keys: the start-up check passes with the first key, and no block sealed
      with it is ever accepted. */
  lemma DuplicateIdStallsProducer(genesis: Genesis, id: string, key: PrivateKey, other: PrivateKey, l: Ledger,
                                  prev: Block, b: Block)
    requires genesis.validators
             == [ValidatorConfig(id, Encoded(PublicOf(key), 0)), ValidatorConfig(id, Encoded(PublicOf(other), 0))]
    requires key != other && GenesisValidators(genesis) == Ok(l.validators)
    requires b.validator == id && b.signature == Sign(key, BlockBytes(b))
    ensures CheckProducer(genesis, id, Encoded(key, 0)) == Ok(key)
    ensures CheckBlock(b, prev, l).Err?
  {
    RegisteredIff(genesis, id, Encoded(key, 0), l);
  }

  /** The block a producer seals: hashed and signed over its unsigned content. */
  function SealedBlock(height: int, prev: Block, payments: seq<Payment>, creates: seq<AccountCreate>,
                       closes: seq<AccountClose>, validator: string, key: PrivateKey, now: Timestamp): Block {
    var block := Block(height, now, payments, creates, closes, prev.hash, NoDigest, validator, NoSignature);
    var hashed := block.(hash := BlockHash(block));
    hashed.(signature := Sign(key, BlockBytes(hashed)))
  }

  /** What a sealed block carries. */
  lemma SealedBlockCarries(height: int, prev: Block, payments: seq<Payment>, creates: seq<AccountCreate>,
                           closes: seq<AccountClose>, validator: string, key: PrivateKey, now: Timestamp)
    ensures var b := SealedBlock(height, prev, payments, creates, closes, validator, key, now);
            && b.height == height && b.previousHash == prev.hash && b.timestamp == now && b.validator == validator
            && b.payments == payments && b.creates == creates && b.closes == closes
            && b.hash == BlockHash(b) && b.signature == Sign(key, BlockBytes(b))
  {
    var b := SealedBlock(height, prev, payments, creates, closes, validator, key, now);
    var blank := b.(hash := NoDigest, signature := NoSignature);
    var hashed := b.(signature := NoSignature);
    assert SameContent(blank, b) && SameContent(hashed, b);
    HashCommitsToContent(blank, b);
    HashCommitsToContent(hashed, b);
  }

  /** A sealed block one above prev passes the header checks exactly when the ledger knows its validator under the
      sealing key; no other check can fail. */
  lemma SealedHeaderIff(height: int, prev: Block, payments: seq<Payment>, creates: seq<AccountCreate>,
                        closes: seq<AccountClose>, validator: string, key: PrivateKey, now: Timestamp, l: Ledger)
    ensures CheckHeader(SealedBlock(height, prev, payments, creates, closes, validator, key, now), prev, l.validators)
            == if height != prev.height + 1 then Rejected(BadHeight(prev.height + 1, height))
               else SealCheck(validator, key, l)
  {
    var block := Block(height, now, payments, creates, closes, prev.hash, NoDigest, validator, NoSignature);
    var hashed := block.(hash := BlockHash(block));
    var sealed := SealedBlock(height, prev, payments, creates, closes, validator, key, now);
    assert SameContent(block, hashed) && SameContent(hashed, sealed) && SameContent(block, sealed);
    HashCommitsToContent(block, hashed);
    HashCommitsToContent(block, sealed);
    HashCommitsToContent(hashed, sealed);
  }

  class Producer {
    const genesis: Genesis
    const validator: string
    const key: PrivateKey

    constructor (genesis: Genesis, validator: string, key: PrivateKey)
      ensures this.genesis == genesis && this.validator == validator && this.key == key
    {
      this.genesis, this.validator, this.key := genesis, validator, key;
    }

    predicate CanProduce(height: int)
      requires genesis.validators != [] && 0 <= height
    {
      SlotOwner(genesis, height) == validator
    }

    method CreateBlock(height: int, prev: Block, payments: seq<Payment>, creates: seq<AccountCreate>,
                       closes: seq<AccountClose>, now: Timestamp) returns (r: Result<Block>)
      requires genesis.validators != [] && 0 <= height
      ensures r == if CanProduce(height)
                   then Ok(SealedBlock(height, prev, payments, creates, closes, validator, key, now))
                   else Err(NotMySlot(height))
    {
      if !CanProduce(height) {
        return Err(NotMySlot(height));
      }
      var block := Block(height, now, payments, creates, closes, prev.hash, NoDigest, validator, NoSignature);
      var bytes := BlockSignBytes(block);
      block := block.(hash := Sha256(bytes));
      bytes := BlockSignBytes(block);
      block := block.(signature := Sign(key, bytes));
      return Ok(block);
    }
  }

  method NewProducer(genesis: Genesis, id: string, keyText: KeyText<PrivateKey>) returns (r: Result<Producer>)
    ensures r.Err? ==> CheckProducer(genesis, id, keyText) == Err(r.error)
    ensures r.Ok? ==> fresh(r.value) && r.value.genesis == genesis && r.value.validator == id
                      && CheckProducer(genesis, id, keyText) == Ok(r.value.key)
  {
    var entry: Option<ValidatorConfig> := None;
    var i := 0;
    while i < |genesis.validators| && entry.None?
      invariant 0 <= i <= |genesis.validators|
      invariant FirstValidator(genesis.validators, id)
                == if entry.Some? then entry else FirstValidator(genesis.validators[i..], id)
      decreases |genesis.validators| - i
    {
      if genesis.validators[i].id == id {
        entry := Some(genesis.validators[i]);
      }
      i := i + 1;
    }
    if entry.None? {
      return Err(ValidatorNotInGenesis(id));
    }
    var priv := ParseKey(keyText);
    if priv.Err? {
      return Err(priv.error);
    }
    var expected := ParseKey(entry.value.publicKey);
    if expected.Err? {
      return Err(expected.error);
    }
    if PublicOf(priv.value) != expected.value {
      return Err(ProducerKeyMismatch);
    }
    var p := new Producer(genesis, id, priv.value);
    return Ok(p);
  }

  // ---------------------------------------------------------------------------------------------
  // Selection
  // ---------------------------------------------------------------------------------------------

  datatype Selection = Selection(chosen: seq<Op>, dropped: seq<Op>, scratch: Ledger)

  function Tried(s: Selection, op: Op): Selection {
    var next := Apply(op, s.scratch);
    if next.Ok? then Selection(s.chosen + [op], s.dropped, next.value) else s.(dropped := s.dropped + [op])
  }

  /** Try every operation in order on a scratch ledger: keep the ones that apply, drop the ones that do not. */
  function Attempt(ops: seq<Op>, l: Ledger): Selection {
    if ops == [] then Selection([], [], l) else Tried(Attempt(ops[..|ops| - 1], l), ops[|ops| - 1])
  }

  lemma AttemptNext(ops: seq<Op>, i: nat, l: Ledger)
    requires i < |ops|
    ensures Attempt(ops[..i + 1], l) == Tried(Attempt(ops[..i], l), ops[i])
  {
    assert ops[..i + 1][..i] == ops[..i];
  }

  /** What was chosen runs, from the starting ledger, exactly to the scratch ledger; and everything attempted was
      either chosen or dropped. */
  lemma {:induction false} ChosenRunsToScratch(ops: seq<Op>, l: Ledger)
    ensures Run(Attempt(ops, l).chosen, l) == Ok(Attempt(ops, l).scratch)
    ensures multiset(Attempt(ops, l).chosen) + multiset(Attempt(ops, l).dropped) == multiset(ops)
  {
    if ops != [] {
      var init, last := ops[..|ops| - 1], ops[|ops| - 1];
      ChosenRunsToScratch(init, l);
      assert ops == init + [last];
      RunSnoc(Attempt(init, l).chosen, last, l);
    }
  }

  /** The first n queued operations are the ones attempted when selection stops at cap chosen. */
  ghost predicate StopsAtCap(queue: seq<Op>, n: nat, cap: int, l: Ledger) {
    && n <= |queue|
    && (n < |queue| ==> cap <= |Attempt(queue[..n], l).chosen|)
    && (0 < n ==> |Attempt(queue[..n - 1], l).chosen| < cap)
  }

  lemma AttemptGrows(ops: seq<Op>, l: Ledger)
    requires ops != []
    ensures |Attempt(ops, l).chosen| <= |Attempt(ops[..|ops| - 1], l).chosen| + 1
  {
  }

  /** Stopping at the cap never exceeds it. */
  lemma CapHolds(queue: seq<Op>, n: nat, cap: nat, l: Ledger)
    requires StopsAtCap(queue, n, cap, l)
    ensures |Attempt(queue[..n], l).chosen| <= cap
  {
    if n > 0 {
      AttemptGrows(queue[..n], l);
      assert queue[..n][..n - 1] == queue[..n - 1];
    }
  }

  function OpId(op: Op): TxID {
    match op
    case CreateOp(tx) => tx.id
    case PayOp(tx) => tx.id
    case CloseOp(tx) => tx.id
  }

  function OpIds(ops: seq<Op>): (ids: seq<TxID>)
    ensures |ids| == |ops| && forall i :: 0 <= i < |ops| ==> ids[i] == OpId(ops[i])
  {
    seq(|ops|, i requires 0 <= i < |ops| => OpId(ops[i]))
  }

  lemma TriedWith(s: Selection, op: Op, outcome: Outcome, after: Ledger)
    requires outcome == Check(op, s.scratch)
    requires outcome.Rejected? ==> after == s.scratch
    requires outcome.Accepted? ==> Apply(op, s.scratch) == Ok(after)
    ensures Tried(s, op) == if outcome.Accepted? then Selection(s.chosen + [op], s.dropped, after)
                            else Selection(s.chosen, s.dropped + [op], after)
  {
  }

  /** What trying a queue under a cap comes to: the n operations tried, in order, are the chosen ones and, by id, the
      dropped ones; the scratch ledger goes from l to scratch. */
  ghost predicate Picks(queue: seq<Op>, n: nat, cap: int, l: Ledger, chosen: seq<Op>, dropIds: seq<TxID>,
                        scratch: Ledger)
  {
    && StopsAtCap(queue, n, cap, l)
    && Attempt(queue[..n], l).chosen == chosen
    && OpIds(Attempt(queue[..n], l).dropped) == dropIds
    && Attempt(queue[..n], l).scratch == scratch
  }

  method SelectCreates(queue: seq<AccountCreate>, state: State, cap: int)
    returns (chosen: seq<AccountCreate>, dropIds: seq<TxID>, ghost n: nat)
    modifies state
    ensures Picks(CreateOps(queue), n, cap, old(state.View()), CreateOps(chosen), dropIds, state.View())
  {
    hide CheckCreate, Created;
    ghost var l, ops := state.View(), CreateOps(queue);
    chosen, dropIds, n := [], [], 0;
    ghost var s := Attempt([], l);
    for i := 0 to |queue|
      invariant n == i && s == Attempt(ops[..n], l)
      invariant 0 < n ==> |Attempt(ops[..n - 1], l).chosen| < cap
      invariant s.chosen == CreateOps(chosen) && dropIds == OpIds(s.dropped) && s.scratch == state.View()
    {
      if |chosen| >= cap {
        break;
      }
      AttemptNext(ops, i, l);
      var outcome := ApplyAccountCreate(queue[i], state);
      TriedWith(s, ops[i], outcome, state.View());
      n, s := n + 1, Tried(s, ops[i]);
      if outcome.Rejected? {
        dropIds := dropIds + [queue[i].id];
        continue;
      }
      chosen := chosen + [queue[i]];
    }
  }

  method SelectPayments(queue: seq<Payment>, state: State, cap: int)
    returns (chosen: seq<Payment>, dropIds: seq<TxID>, ghost n: nat)
    modifies state
    ensures Picks(PayOps(queue), n, cap, old(state.View()), PayOps(chosen), dropIds, state.View())
  {
    hide CheckPayment, Paid;
    ghost var l, ops := state.View(), PayOps(queue);
    chosen, dropIds, n := [], [], 0;
    ghost var s := Attempt([], l);
    for i := 0 to |queue|
      invariant n == i && s == Attempt(ops[..n], l)
      invariant 0 < n ==> |Attempt(ops[..n - 1], l).chosen| < cap
      invariant s.chosen == PayOps(chosen) && dropIds == OpIds(s.dropped) && s.scratch == state.View()
    {
      if |chosen| >= cap {
        break;
      }
      AttemptNext(ops, i, l);
      var outcome := ApplyTransaction(queue[i], state);
      TriedWith(s, ops[i], outcome, state.View());
      n, s := n + 1, Tried(s, ops[i]);
      if outcome.Rejected? {
        dropIds := dropIds + [queue[i].id];
        continue;
      }
      chosen := chosen + [queue[i]];
    }
  }

  method SelectCloses(queue: seq<AccountClose>, state: State, cap: int)
    returns (chosen: seq<AccountClose>, dropIds: seq<TxID>, ghost n: nat)
    modifies state
    ensures Picks(CloseOps(queue), n, cap, old(state.View()), CloseOps(chosen), dropIds, state.View())
  {
    hide CheckClose, Closed;
    ghost var l, ops := state.View(), CloseOps(queue);
    chosen, dropIds, n := [], [], 0;
    ghost var s := Attempt([], l);
    for i := 0 to |queue|
      invariant n == i && s == Attempt(ops[..n], l)
      invariant 0 < n ==> |Attempt(ops[..n - 1], l).chosen| < cap
      invariant s.chosen == CloseOps(chosen) && dropIds == OpIds(s.dropped) && s.scratch == state.View()
    {
      if |chosen| >= cap {
        break;
      }
      AttemptNext(ops, i, l);
      var outcome := ApplyAccountClose(queue[i], state);
      TriedWith(s, ops[i], outcome, state.View());
      n, s := n + 1, Tried(s, ops[i]);
      if outcome.Rejected? {
        dropIds := dropIds + [queue[i].id];
        continue;
      }
      chosen := chosen + [queue[i]];
    }
  }

  // The whole of selectExecutable: creates, then payments, then closes, under one cap.

  datatype Queues = Queues(payments: seq<Payment>, creates: seq<AccountCreate>, closes: seq<AccountClose>)

  datatype Picked = Picked(creates: seq<AccountCreate>, payments: seq<Payment>, closes: seq<AccountClose>,
                           dropCreates: seq<TxID>, dropPayments: seq<TxID>, dropCloses: seq<TxID>)

  function WithoutDropped(q: Queues, picked: Picked): Queues {
    Queues(Without(q.payments, IdSet(picked.dropPayments), PaymentId),
           Without(q.creates, IdSet(picked.dropCreates), CreateId),
           Without(q.closes, IdSet(picked.dropCloses), CloseId))
  }

  /** How far each queue was tried, and the scratch ledger after each. */
  datatype Trace = Trace(creates: nat, payments: nat, closes: nat,
                         created: Ledger, paid: Ledger, scratch: Ledger)

  /** Creates, then payments, then closes, under one cap. */
  ghost predicate Selects(q: Queues, max: nat, l: Ledger, picked: Picked, trace: Trace) {
    && Picks(CreateOps(q.creates), trace.creates, max, l, CreateOps(picked.creates), picked.dropCreates, trace.created)
    && Picks(PayOps(q.payments), trace.payments, max - |picked.creates|, trace.created,
             PayOps(picked.payments), picked.dropPayments, trace.paid)
    && Picks(CloseOps(q.closes), trace.closes, max - |picked.creates| - |picked.payments|, trace.paid,
             CloseOps(picked.closes), picked.dropCloses, trace.scratch)
  }

  lemma {:induction false} TriedIds(ops: seq<Op>, l: Ledger)
    ensures IdSet(OpIds(Attempt(ops, l).dropped)) + IdSet(OpIds(Attempt(ops, l).chosen)) == IdSet(OpIds(ops))
  {
    hide Apply;
    if ops != [] {
      var init, last := ops[..|ops| - 1], ops[|ops| - 1];
      var s := Attempt(init, l);
      TriedIds(init, l);
      assert OpIds(ops) == OpIds(init) + [OpId(last)];
      assert OpIds(s.chosen + [last]) == OpIds(s.chosen) + [OpId(last)];
      assert OpIds(s.dropped + [last]) == OpIds(s.dropped) + [OpId(last)];
    }
  }

  /** What a queue is as operations: the same entries under the same ids. */
  ghost predicate AsOps<T>(queue: seq<T>, idOf: T -> TxID, ops: seq<Op>) {
    |ops| == |queue| && OpIds(ops) == IdsOf(queue, idOf)
  }

  lemma PrefixIds<T>(queue: seq<T>, idOf: T -> TxID, ops: seq<Op>, n: nat)
    requires AsOps(queue, idOf, ops) && n <= |queue|
    ensures OpIds(ops[..n]) == IdsOf(queue[..n], idOf)
  {
    forall i | 0 <= i < n ensures OpIds(ops[..n])[i] == IdsOf(queue[..n], idOf)[i] {
      assert OpIds(ops[..n])[i] == OpIds(ops)[i] && IdsOf(queue[..n], idOf)[i] == IdsOf(queue, idOf)[i];
    }
  }

  lemma TriedSet(ops: seq<Op>, n: nat, cap: int, l: Ledger, chosenOps: seq<Op>, dropIds: seq<TxID>, scratch: Ledger)
    requires Picks(ops, n, cap, l, chosenOps, dropIds, scratch)
    ensures n <= |ops| && IdSet(dropIds) + IdSet(OpIds(chosenOps)) == IdSet(OpIds(ops[..n]))
  {
    hide Attempt, OpIds, IdSet;
    TriedIds(ops[..n], l);
  }

  /** Once the dropped and the chosen entries have left a queue, exactly the untried ones are left. */
  lemma PickLeavesUntried<T>(queue: seq<T>, idOf: T -> TxID, ops: seq<Op>, n: nat, cap: int, l: Ledger,
                             chosen: seq<T>, chosenOps: seq<Op>, dropIds: seq<TxID>, scratch: Ledger)
    requires AsOps(queue, idOf, ops) && AsOps(chosen, idOf, chosenOps) && Distinct(IdsOf(queue, idOf))
    requires Picks(ops, n, cap, l, chosenOps, dropIds, scratch)
    ensures n <= |queue|
    ensures Without(Without(queue, IdSet(dropIds), idOf), IdSet(IdsOf(chosen, idOf)), idOf) == queue[n..]
  {
    hide Picks, Without, Distinct, OpIds, IdsOf, IdSet;
    TriedSet(ops, n, cap, l, chosenOps, dropIds, scratch);
    PrefixIds(queue, idOf, ops, n);
    WithoutTwice(queue, IdSet(dropIds), IdSet(IdsOf(chosen, idOf)), idOf);
    WithoutFirst(queue, n, idOf);
  }

  ghost predicate FailsAt(ops: seq<Op>, l: Ledger, i: int) {
    0 <= i < |ops| && Apply(ops[i], Attempt(ops[..i], l).scratch).Err?
  }

  lemma {:induction false} DroppedIds(ops: seq<Op>, n: nat, l: Ledger, i: nat)
    requires n <= |ops| && i < |ops| && Distinct(OpIds(ops))
    ensures OpId(ops[i]) in OpIds(Attempt(ops[..n], l).dropped) <==> i < n && FailsAt(ops, l, i)
  {
    hide Apply;
    if n == 0 {
      assert OpIds(Attempt(ops[..0], l).dropped) == [];
    } else {
      var s := Attempt(ops[..n - 1], l);
      DroppedIds(ops, n - 1, l, i);
      AttemptNext(ops, n - 1, l);
      assert OpIds(s.dropped + [ops[n - 1]]) == OpIds(s.dropped) + [OpId(ops[n - 1])];
      assert OpId(ops[n - 1]) == OpIds(ops)[n - 1] && OpId(ops[i]) == OpIds(ops)[i];
    }
  }

  /** An entry of a queue is dropped if and only if it was tried and could not be applied when its turn came. */
  lemma PickDropsFailing<T>(queue: seq<T>, idOf: T -> TxID, ops: seq<Op>, n: nat, cap: int, l: Ledger,
                            chosenOps: seq<Op>, dropIds: seq<TxID>, scratch: Ledger, i: nat)
    requires AsOps(queue, idOf, ops) && Distinct(IdsOf(queue, idOf)) && i < |queue|
    requires Picks(ops, n, cap, l, chosenOps, dropIds, scratch)
    ensures queue[i] in Without(queue, IdSet(dropIds), idOf) <==> !(i < n && FailsAt(ops, l, i))
  {
    hide Attempt, Apply;
    DroppedIds(ops, n, l, i);
    WithoutHas(queue, IdSet(dropIds), idOf, queue[i]);
    assert OpIds(ops)[i] == OpId(ops[i]) == IdsOf(queue, idOf)[i] == idOf(queue[i]);
  }

  lemma PickReplays(queue: seq<Op>, n: nat, cap: nat, l: Ledger, chosen: seq<Op>, dropIds: seq<TxID>, scratch: Ledger)
    requires Picks(queue, n, cap, l, chosen, dropIds, scratch)
    ensures |chosen| <= cap
    ensures Run(chosen, l) == Ok(scratch)
  {
    CapHolds(queue, n, cap, l);
    ChosenRunsToScratch(queue[..n], l);
  }

  function PickedOps(picked: Picked): (ops: seq<Op>)
    ensures |ops| == |picked.creates| + |picked.payments| + |picked.closes|
  {
    CreateOps(picked.creates) + PayOps(picked.payments) + CloseOps(picked.closes)
  }

  /** Whatever selection picks fits the cap and replays, as a block body on the ledger it was selected on, exactly
      to the scratch ledger. */
  lemma SelectionReplays(q: Queues, max: nat, l: Ledger, picked: Picked, trace: Trace)
    requires Selects(q, max, l, picked, trace)
    ensures |picked.creates| + |picked.payments| + |picked.closes| <= max
    ensures Run(PickedOps(picked), l) == Ok(trace.scratch)
  {
    var creates, payments, closes := CreateOps(picked.creates), PayOps(picked.payments), CloseOps(picked.closes);
    PickReplays(CreateOps(q.creates), trace.creates, max, l, creates, picked.dropCreates, trace.created);
    PickReplays(PayOps(q.payments), trace.payments, max - |creates|, trace.created, payments, picked.dropPayments,
                trace.paid);
    PickReplays(CloseOps(q.closes), trace.closes, max - |creates| - |payments|, trace.paid, closes, picked.dropCloses,
                trace.scratch);
    RunConcat(creates, payments, l);
    RunConcat(creates + payments, closes, l);
  }

  /** Producer soundness: the selection, sealed on the tip, is accepted on the ledger it was selected on exactly when
      that ledger registers the producer's key, and then leads exactly to the scratch ledger. */
  lemma ProducedBlockIsAccepted(q: Queues, max: nat, l: Ledger, picked: Picked, trace: Trace,
                                prev: Block, validator: string, key: PrivateKey, now: Timestamp)
    requires Selects(q, max, l, picked, trace)
    ensures var b := SealedBlock(prev.height + 1, prev, picked.payments, picked.creates, picked.closes,
                                 validator, key, now);
            && BlockOps(b) == PickedOps(picked)
            && var sealed := SealCheck(validator, key, l);
               CheckBlock(b, prev, l) == if sealed.Rejected? then Err(sealed.error) else Ok(trace.scratch)
  {
    SelectionReplays(q, max, l, picked, trace);
    SealedHeaderIff(prev.height + 1, prev, picked.payments, picked.creates, picked.closes, validator, key, now, l);
  }
}
