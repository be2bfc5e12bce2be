/** What a node holds after a crash and restart: the persisted projection, hydration from configuration and
    chain, and the replay that vets the chain (`New`, `hydrateAccountCreatePubKeys`, `validateChain`). */
module Restart {
  import opened Domain
  import opened Crypto
  import opened LedgerRules
  import opened LedgerEffects
  import opened ChainRules
  import opened Bootstrap
  import opened Store

  function GenesisBlock(genesis: Genesis): Block
    requires genesis.validators != []
  {
    var time := if genesis.time.Some? then genesis.time.value else Timestamp(0, 0);
    var block := Block(0, time, [], [], [], NoDigest, NoDigest, genesis.validators[0].id, NoSignature);
    block.(hash := BlockHash(block))
  }

  lemma GenesisBlockIsGenesis(genesis: Genesis)
    requires genesis.validators != []
    ensures IsGenesis(GenesisBlock(genesis))
    ensures var g := GenesisBlock(genesis);
            && g.payments == [] && g.creates == [] && g.closes == [] && g.previousHash == NoDigest
            && g.validator == genesis.validators[0].id && g.signature == NoSignature
            && (genesis.time.Some? ==> g.timestamp == genesis.time.value)
  {
    var g := GenesisBlock(genesis);
    var unsealed := g.(hash := NoDigest);
    assert SameContent(g, unsealed);
    HashCommitsToContent(g, unsealed);
  }

  // ---------------------------------------------------------------------------------------------
  // Account keys along a chain
  // ---------------------------------------------------------------------------------------------

  function CreateKeys(txs: seq<AccountCreate>, keys: KeyTable): Result<KeyTable> {
    if txs == [] then Ok(keys) else
      var before := CreateKeys(txs[..|txs| - 1], keys);
      var last := txs[|txs| - 1];
      if before.Err? then before
      else if ParseKey(last.publicKey).Err? then Err(ParseKey(last.publicKey).error)
      else Ok(before.value[last.account.id := ParseKey(last.publicKey).value])
  }

  function CloseKeys(txs: seq<AccountClose>, keys: KeyTable): KeyTable {
    if txs == [] then keys else CloseKeys(txs[..|txs| - 1], keys) - {txs[|txs| - 1].account}
  }

  /** The pass of hydrateAccountCreatePubKeys over the stored blocks. */
  function ChainKeys(blocks: seq<Block>, keys: KeyTable): Result<KeyTable> {
    if blocks == [] then Ok(keys) else
      var before := ChainKeys(blocks[..|blocks| - 1], keys);
      if before.Err? then before else
        var created := CreateKeys(blocks[|blocks| - 1].creates, before.value);
        if created.Err? then created else Ok(CloseKeys(blocks[|blocks| - 1].closes, created.value))
  }

  function KeyStep(op: Op, keys: KeyTable): KeyTable {
    match op
    case CreateOp(tx) =>
      if ParseKey(tx.publicKey).Ok? then keys[tx.account.id := ParseKey(tx.publicKey).value] else keys
    case PayOp(_) => keys
    case CloseOp(tx) => keys - {tx.account}
  }

  function KeysAfter(ops: seq<Op>, keys: KeyTable): KeyTable {
    if ops == [] then keys else KeyStep(ops[|ops| - 1], KeysAfter(ops[..|ops| - 1], keys))
  }

  lemma {:induction false} KeysAfterConcat(a: seq<Op>, b: seq<Op>, keys: KeyTable)
    ensures KeysAfter(a + b, keys) == KeysAfter(b, KeysAfter(a, keys))
  {
    if b == [] {
      assert a + b == a;
    } else {
      KeysAfterConcat(a, b[..|b| - 1], keys);
      assert (a + b)[..|a + b| - 1] == a + b[..|b| - 1];
    }
  }

  lemma {:induction false} CreateKeysAre(txs: seq<AccountCreate>, l: Ledger, keys: KeyTable)
    requires Run(CreateOps(txs), l).Ok?
    ensures CreateKeys(txs, keys) == Ok(KeysAfter(CreateOps(txs), keys))
  {
    if txs != [] {
      var init := txs[..|txs| - 1];
      assert CreateOps(txs)[..|txs| - 1] == CreateOps(init);
      CreateKeysAre(init, l, keys);
    }
  }

  lemma {:induction false} PayKeysAre(txs: seq<Payment>, keys: KeyTable)
    ensures KeysAfter(PayOps(txs), keys) == keys
  {
    if txs != [] {
      assert PayOps(txs)[..|txs| - 1] == PayOps(txs[..|txs| - 1]);
      PayKeysAre(txs[..|txs| - 1], keys);
    }
  }

  lemma {:induction false} CloseKeysAre(txs: seq<AccountClose>, keys: KeyTable)
    ensures CloseKeys(txs, keys) == KeysAfter(CloseOps(txs), keys)
  {
    if txs != [] {
      assert CloseOps(txs)[..|txs| - 1] == CloseOps(txs[..|txs| - 1]);
      CloseKeysAre(txs[..|txs| - 1], keys);
    }
  }

  lemma BlockKeysAre(b: Block, l: Ledger, keys: KeyTable)
    requires Run(BlockOps(b), l).Ok?
    ensures CreateKeys(b.creates, keys).Ok?
    ensures CloseKeys(b.closes, CreateKeys(b.creates, keys).value) == KeysAfter(BlockOps(b), keys)
  {
    RunConcat(CreateOps(b.creates) + PayOps(b.payments), CloseOps(b.closes), l);
    RunConcat(CreateOps(b.creates), PayOps(b.payments), l);
    CreateKeysAre(b.creates, l, keys);
    KeysAfterConcat(CreateOps(b.creates) + PayOps(b.payments), CloseOps(b.closes), keys);
    KeysAfterConcat(CreateOps(b.creates), PayOps(b.payments), keys);
    PayKeysAre(b.payments, KeysAfter(CreateOps(b.creates), keys));
    CloseKeysAre(b.closes, KeysAfter(CreateOps(b.creates), keys));
  }

  ghost predicate BareGenesis(blocks: seq<Block>) {
    blocks != [] && blocks[0].creates == [] && blocks[0].closes == []
  }

  lemma {:induction false} ChainKeysAre(blocks: seq<Block>, l: Ledger, keys: KeyTable)
    requires BareGenesis(blocks) && Replay(blocks, l).Ok?
    ensures ChainKeys(blocks, keys) == Ok(KeysAfter(ChainOps(blocks), keys))
  {
    var init, last := blocks[..|blocks| - 1], blocks[|blocks| - 1];
    if |blocks| == 1 {
      assert ChainKeys(init, keys) == Ok(keys);
    } else {
      ChainKeysAre(init, l, keys);
      BlockKeysAre(last, Replay(init, l).value, KeysAfter(ChainOps(init), keys));
      KeysAfterConcat(ChainOps(init), BlockOps(last), keys);
    }
  }

  // ---------------------------------------------------------------------------------------------
  // Replaying accepted operations under other keys
  // ---------------------------------------------------------------------------------------------

  /** The account whose key an operation is checked against. */
  function KeyUse(op: Op): Option<AccountID> {
    match op
    case CreateOp(_) => None
    case PayOp(tx) => Some(tx.payer.id)
    case CloseOp(tx) => Some(tx.account)
  }

  function TouchedBy(op: Op): set<AccountID> {
    match op
    case CreateOp(tx) => {tx.account.id}
    case PayOp(_) => {}
    case CloseOp(tx) => {tx.account}
  }

  /** Accounts created or closed on chain. */
  function Touched(ops: seq<Op>): set<AccountID> {
    if ops == [] then {} else Touched(ops[..|ops| - 1]) + TouchedBy(ops[|ops| - 1])
  }

  /** Accounts that pay or are closed before anything on chain has set their key. */
  function Needed(ops: seq<Op>): set<AccountID> {
    if ops == [] then {} else
      var init, use := ops[..|ops| - 1], KeyUse(ops[|ops| - 1]);
      Needed(init) + if use.Some? && use.value !in Touched(init) then {use.value} else {}
  }

  predicate SameKey(a: AccountID, k: KeyTable, m: KeyTable) {
    (a in k <==> a in m) && (a in k ==> k[a] == m[a])
  }

  lemma OpUnderOtherKeys(op: Op, l: Ledger, keys: KeyTable)
    requires Apply(op, l).Ok?
    ensures Apply(op, l.(keys := keys)).Ok? <==> KeyUse(op).Some? ==> SameKey(KeyUse(op).value, l.keys, keys)
    ensures Apply(op, l.(keys := keys)).Ok? ==>
              Apply(op, l.(keys := keys)).value == Apply(op, l).value.(keys := KeyStep(op, keys))
  {
    if op.PayOp? {
      PaymentUnderOtherKeys(op.payment, l, keys);
    }
  }

  lemma PaymentUnderOtherKeys(tx: Payment, l: Ledger, keys: KeyTable)
    requires CheckPayment(tx, l) == Accepted
    ensures CheckPayment(tx, l.(keys := keys)) == Accepted <==> SameKey(tx.payer.id, l.keys, keys)
  {
    var other := l.(keys := keys);
    PaymentAcceptedIff(tx, l);
    PaymentAcceptedIff(tx, other);
    assert forall item :: ItemAllowed(item, l) <==> ItemAllowed(item, other);
  }

  lemma {:induction false} KeysWhereTouched(ops: seq<Op>, k: KeyTable, m: KeyTable, a: AccountID)
    requires CreatesParse(ops)
    ensures a in Touched(ops) ==> SameKey(a, KeysAfter(ops, k), KeysAfter(ops, m))
    ensures a !in Touched(ops) ==> SameKey(a, KeysAfter(ops, k), k) && SameKey(a, KeysAfter(ops, m), m)
  {
    if ops != [] {
      KeysWhereTouched(ops[..|ops| - 1], k, m, a);
    }
  }

  lemma OpKeys(op: Op, l: Ledger)
    requires Apply(op, l).Ok?
    ensures Apply(op, l).value.keys == KeyStep(op, l.keys)
    ensures op.CreateOp? ==> ParseKey(op.create.publicKey).Ok?
    ensures KeyUse(op).Some? ==> KeyUse(op).value in l.keys
  {
    if op.PayOp? {
      PaymentAcceptedIff(op.payment, l);
    }
  }

  ghost predicate CreatesParse(ops: seq<Op>) {
    forall i :: 0 <= i < |ops| && ops[i].CreateOp? ==> ParseKey(ops[i].create.publicKey).Ok?
  }

  lemma {:induction false} RunKeys(ops: seq<Op>, l: Ledger)
    requires Run(ops, l).Ok?
    ensures CreatesParse(ops)
    ensures Run(ops, l).value.keys == KeysAfter(ops, l.keys)
  {
    if ops != [] {
      var init, last := ops[..|ops| - 1], ops[|ops| - 1];
      RunKeys(init, l);
      OpKeys(last, Run(init, l).value);
      CreatesParseLast(ops);
    }
  }

  lemma CreatesParseLast(ops: seq<Op>)
    requires ops != [] && CreatesParse(ops[..|ops| - 1])
    requires ops[|ops| - 1].CreateOp? ==> ParseKey(ops[|ops| - 1].create.publicKey).Ok?
    ensures CreatesParse(ops)
  {
    var init := ops[..|ops| - 1];
    assert forall i :: 0 <= i < |init| ==> ops[i] == init[i];
  }

  ghost predicate KeysSuffice(ops: seq<Op>, k: KeyTable, m: KeyTable) {
    forall a :: a in Needed(ops) ==> SameKey(a, k, m)
  }

  lemma UseAgrees(init: seq<Op>, last: Op, k: KeyTable, m: KeyTable)
    requires CreatesParse(init)
    ensures KeysSuffice(init + [last], k, m) <==>
            KeysSuffice(init, k, m)
            && (KeyUse(last).Some? ==> SameKey(KeyUse(last).value, KeysAfter(init, k), KeysAfter(init, m)))
  {
    assert (init + [last])[..|init|] == init;
    if KeyUse(last).Some? {
      KeysWhereTouched(init, k, m, KeyUse(last).value);
    }
  }

  lemma StepUnderOtherKeys(init: seq<Op>, last: Op, l: Ledger, keys: KeyTable)
    requires Run(init, l).Ok? && Apply(last, Run(init, l).value).Ok? && CreatesParse(init)
    requires Run(init, l).value.keys == KeysAfter(init, l.keys)
    requires Run(init, l.(keys := keys)) == Ok(Run(init, l).value.(keys := KeysAfter(init, keys)))
    ensures Run(init + [last], l.(keys := keys)).Ok? <==>
            KeyUse(last).Some? ==> SameKey(KeyUse(last).value, KeysAfter(init, l.keys), KeysAfter(init, keys))
    ensures Run(init + [last], l.(keys := keys)).Ok? ==>
              Run(init + [last], l.(keys := keys)).value
              == Run(init + [last], l).value.(keys := KeysAfter(init + [last], keys))
  {
    assert (init + [last])[..|init|] == init;
    RunSnoc(init, last, l);
    RunSnoc(init, last, l.(keys := keys));
    OpUnderOtherKeys(last, Run(init, l).value, KeysAfter(init, keys));
  }

  /** Accepted operations replay under other initial account keys exactly when those agree on every needed
      account; and then only the keys can differ. */
  lemma {:induction false} RunUnderOtherKeys(ops: seq<Op>, l: Ledger, keys: KeyTable)
    requires Run(ops, l).Ok?
    ensures Run(ops, l.(keys := keys)).Ok? <==> KeysSuffice(ops, l.keys, keys)
    ensures Run(ops, l.(keys := keys)).Ok? ==>
              Run(ops, l.(keys := keys)).value == Run(ops, l).value.(keys := KeysAfter(ops, keys))
  {
    hide Apply;
    if ops != [] {
      var init, last := ops[..|ops| - 1], ops[|ops| - 1];
      assert ops == init + [last];
      RunUnderOtherKeys(init, l, keys);
      RunKeys(init, l);
      UseAgrees(init, last, l.keys, keys);
      if Run(init, l.(keys := keys)).Ok? {
        StepUnderOtherKeys(init, last, l, keys);
      }
    }
  }

  // ---------------------------------------------------------------------------------------------
  // Restart
  // ---------------------------------------------------------------------------------------------

  function OnlyValue(r: Result<KeyTable>, l: Ledger): Result<Ledger> {
    if r.Err? then Err(r.error) else Ok(l.(keys := r.value))
  }

  /** The ledger `New` ends up with on a store that already holds blocks, given the hydrated ledger it was passed. */
  function BootHydrated(blocks: seq<Block>, saved: Option<Persisted>, hydrated: Ledger, genesis: Genesis,
                        keystore: Keystore): Result<Ledger>
    requires blocks != []
  {
    var loaded := if saved.Some? then Hydrate(Restore(saved.value), genesis, keystore) else Ok(hydrated);
    if loaded.Err? then loaded else
      var keyed := OnlyValue(ChainKeys(blocks, loaded.value.keys), loaded.value);
      if keyed.Err? then keyed else
        var base := InitialLedger(genesis, keystore, loaded.value.taxes);
        if base.Err? then base else
          var replayed := Replay(blocks, base.value);
          if replayed.Err? then replayed else keyed
  }

  function Boot(blocks: seq<Block>, saved: Option<Persisted>, passed: Ledger, genesis: Genesis,
                keystore: Keystore): Result<Ledger>
    requires blocks != []
  {
    var first := Hydrate(passed, genesis, keystore);
    if first.Err? then first else BootHydrated(blocks, saved, first.value, genesis, keystore)
  }

  /** The durable contents of the store after any of its update transactions, where chain is what was appended. */
  ghost predicate Durable(d: Disk, chain: seq<Block>, genesis: Genesis, first: Ledger)
    requires genesis.validators != []
  {
    if chain == [] then d == Disk(map[], None) else
      && chain[0] == GenesisBlock(genesis)
      && Replay(chain, first).Ok?
      && d.blocks == Prefix(chain)
      && (d.state == Some(Project(Replay(chain, first).value)) || (|chain| == 1 && d.state == None))
  }

  /** One update transaction of a running node: the genesis block, the first state, or a block with its state. */
  ghost predicate Persists(d: Disk, e: Disk, chain: seq<Block>, after: seq<Block>, genesis: Genesis, first: Ledger)
    requires genesis.validators != []
  {
    || (chain == [] && after == [GenesisBlock(genesis)]
        && e == d.(blocks := d.blocks[0 := GenesisBlock(genesis)]))
    || (|chain| == 1 && after == chain && e == d.(state := Some(Project(first))))
    || (chain != [] && after != [] && after[..|after| - 1] == chain
        && Replay(chain, first).Ok?
        && var b := after[|after| - 1];
           var next := CheckBlock(b, chain[|chain| - 1], Replay(chain, first).value);
           next.Ok? && e == Disk(d.blocks[b.height := b], Some(Project(next.value))))
  }

  lemma AppendKeepsDurable(d: Disk, chain: seq<Block>, b: Block, genesis: Genesis, first: Ledger)
    requires genesis.validators != [] && chain != [] && Durable(d, chain, genesis, first)
    requires CheckBlock(b, chain[|chain| - 1], Replay(chain, first).value).Ok?
    ensures var next := CheckBlock(b, chain[|chain| - 1], Replay(chain, first).value).value;
            Durable(Disk(d.blocks[b.height := b], Some(Project(next))), chain + [b], genesis, first)
  {
    hide CheckBlock;
    ReplaySnoc(chain, b, first);
    AcceptedHeights(chain + [b], first);
    assert (chain + [b])[|chain|] == b;
    assert Prefix(chain + [b]) == Prefix(chain)[|chain| := b];
  }

  lemma PersistsKeepsDurable(d: Disk, e: Disk, chain: seq<Block>, after: seq<Block>, genesis: Genesis, first: Ledger)
    requires genesis.validators != []
    requires Durable(d, chain, genesis, first) && Persists(d, e, chain, after, genesis, first)
    ensures Durable(e, after, genesis, first)
  {
    hide CheckBlock;
    if chain == [] {
      assert Prefix(after) == map[0 := GenesisBlock(genesis)];
    } else if after != chain {
      assert after == chain + [after[|after| - 1]];
      AppendKeepsDurable(d, chain, after[|after| - 1], genesis, first);
    }
  }

  lemma InitialLedgersDifferInKeys(genesis: Genesis, k: Keystore, m: Keystore, taxes: TaxTable)
    requires InitialLedger(genesis, k, taxes).Ok? && InitialLedger(genesis, m, taxes).Ok?
    ensures var f, g := InitialLedger(genesis, k, taxes).value, InitialLedger(genesis, m, taxes).value;
            g == f.(keys := g.keys)
  {
  }

  lemma LoadedLedger(d: Disk, chain: seq<Block>, genesis: Genesis, keystore: Keystore, other: Keystore, taxes: TaxTable)
    requires genesis.validators != [] && chain != []
    requires InitialLedger(genesis, keystore, taxes).Ok? && InitialLedger(genesis, other, taxes).Ok?
    requires Durable(d, chain, genesis, InitialLedger(genesis, keystore, taxes).value)
    ensures var first, passed :=
              InitialLedger(genesis, keystore, taxes).value, InitialLedger(genesis, other, taxes).value;
            var live := Replay(chain, first).value;
            && Hydrate(passed, genesis, other) == Ok(passed)
            && (d.state.Some? ==> Hydrate(Restore(d.state.value), genesis, other) == Ok(live.(keys := passed.keys)))
            && (d.state.None? ==> passed == live.(keys := passed.keys))
  {
    var blank := Ledger(GenesisAccounts(genesis.accounts), taxes, AllowedSet(genesis), map[], map[]);
    var first, passed := InitialLedger(genesis, keystore, taxes).value, InitialLedger(genesis, other, taxes).value;
    HydrateIdempotent(genesis, other, blank);
    InitialLedgersDifferInKeys(genesis, keystore, other, taxes);
    ReplayIsRun(chain, first);
    RunFrame(ChainOps(chain), first);
  }

  /** Restarting with any well-formed keystore: the stored chain is accepted exactly when the keystore agrees with
      the first-start one on every account whose key the chain needs, and then everything but the account keys is
      the live state. The keystore need not list accounts created on chain, and may. */
  lemma RestartAcceptsIff(d: Disk, chain: seq<Block>, genesis: Genesis, keystore: Keystore, other: Keystore,
                          taxes: TaxTable)
    requires genesis.validators != [] && chain != []
    requires InitialLedger(genesis, keystore, taxes).Ok? && InitialLedger(genesis, other, taxes).Ok?
    requires Durable(d, chain, genesis, InitialLedger(genesis, keystore, taxes).value)
    ensures var first, passed :=
              InitialLedger(genesis, keystore, taxes).value, InitialLedger(genesis, other, taxes).value;
            var live, restarted := Replay(chain, first).value, Boot(chain, d.state, passed, genesis, other);
            && (restarted.Ok? <==> KeysSuffice(ChainOps(chain), first.keys, passed.keys))
            && (restarted.Ok? ==> restarted.value == live.(keys := KeysAfter(ChainOps(chain), passed.keys)))
  {
    var first, passed := InitialLedger(genesis, keystore, taxes).value, InitialLedger(genesis, other, taxes).value;
    LoadedLedger(d, chain, genesis, keystore, other, taxes);
    InitialLedgersDifferInKeys(genesis, keystore, other, taxes);
    ReplayIsRun(chain, first);
    ReplayIsRun(chain, passed);
    RunFrame(ChainOps(chain), first);
    RunUnderOtherKeys(ChainOps(chain), first, passed.keys);
    ChainKeysAre(chain, first, passed.keys);
  }

  lemma SameKeysEqual(k: KeyTable, m: KeyTable)
    ensures k == m <==> forall a :: SameKey(a, k, m)
  {
    if forall a :: SameKey(a, k, m) {
      forall a ensures a in k <==> a in m {
        assert SameKey(a, k, m);
      }
      assert k.Keys == m.Keys;
      forall a | a in k ensures k[a] == m[a] {
        assert SameKey(a, k, m);
      }
    }
  }

  lemma SameKeysAfterIff(ops: seq<Op>, k: KeyTable, m: KeyTable)
    requires CreatesParse(ops)
    ensures KeysAfter(ops, k) == KeysAfter(ops, m) <==> forall a :: a !in Touched(ops) ==> SameKey(a, k, m)
  {
    hide KeysAfter, Touched;
    var p, q := KeysAfter(ops, k), KeysAfter(ops, m);
    forall a ensures SameKey(a, p, q) <==> a in Touched(ops) || SameKey(a, k, m) {
      KeysWhereTouched(ops, k, m, a);
    }
    SameKeysEqual(p, q);
  }

  /** Restart rebuilds exactly the live ledger, account keys included, if and only if in addition the keystore
      agrees with the first-start one on every account never created or closed on chain. */
  lemma RestartRecoversIff(d: Disk, chain: seq<Block>, genesis: Genesis, keystore: Keystore, other: Keystore,
                           taxes: TaxTable)
    requires genesis.validators != [] && chain != []
    requires InitialLedger(genesis, keystore, taxes).Ok? && InitialLedger(genesis, other, taxes).Ok?
    requires Durable(d, chain, genesis, InitialLedger(genesis, keystore, taxes).value)
    ensures var first, passed :=
              InitialLedger(genesis, keystore, taxes).value, InitialLedger(genesis, other, taxes).value;
            Boot(chain, d.state, passed, genesis, other) == Replay(chain, first) <==>
            KeysSuffice(ChainOps(chain), first.keys, passed.keys)
            && forall a :: a !in Touched(ChainOps(chain)) ==> SameKey(a, first.keys, passed.keys)
  {
    hide Boot, Apply;
    var first, passed := InitialLedger(genesis, keystore, taxes).value, InitialLedger(genesis, other, taxes).value;
    RestartAcceptsIff(d, chain, genesis, keystore, other, taxes);
    ReplayIsRun(chain, first);
    RunKeys(ChainOps(chain), first);
    SameKeysAfterIff(ChainOps(chain), first.keys, passed.keys);
  }

  // ---------------------------------------------------------------------------------------------
  // The life of a store: updates, crashes and restarts
  // ---------------------------------------------------------------------------------------------

  /** A store, the chain it is to hold, and the keystore the node was last started with. */
  datatype Moment = Moment(disk: Disk, chain: seq<Block>, keystore: Keystore)

  ghost predicate Updates(s: Moment, t: Moment, genesis: Genesis, taxes: TaxTable)
    requires genesis.validators != []
  {
    && InitialLedger(genesis, s.keystore, taxes).Ok? && t.keystore == s.keystore
    && Persists(s.disk, t.disk, s.chain, t.chain, genesis, InitialLedger(genesis, s.keystore, taxes).value)
  }

  /** A crash at any point, and a start with any keystore that `New` accepts. */
  ghost predicate Restarts(s: Moment, t: Moment, genesis: Genesis, taxes: TaxTable) {
    && t.disk == s.disk && t.chain == s.chain
    && InitialLedger(genesis, t.keystore, taxes).Ok?
    && (s.chain != [] ==>
          Boot(s.chain, s.disk.state, InitialLedger(genesis, t.keystore, taxes).value, genesis, t.keystore).Ok?)
  }

  ghost predicate Lives(s: Moment, t: Moment, genesis: Genesis, taxes: TaxTable)
    requires genesis.validators != []
  {
    Updates(s, t, genesis, taxes) || Restarts(s, t, genesis, taxes)
  }

  ghost predicate IsHistory(moments: seq<Moment>, genesis: Genesis, taxes: TaxTable)
    requires genesis.validators != []
  {
    && moments != []
    && moments[0].disk == Disk(map[], None) && moments[0].chain == []
    && InitialLedger(genesis, moments[0].keystore, taxes).Ok?
    && forall i :: 0 <= i < |moments| - 1 ==> Lives(moments[i], moments[i + 1], genesis, taxes)
  }

  /** A node started with another keystore is, from then on, a node that had that keystore from the beginning: its
      ledger is the replay from there, and so the store is durable for it. */
  lemma RestartRebases(d: Disk, chain: seq<Block>, genesis: Genesis, keystore: Keystore, other: Keystore,
                       taxes: TaxTable)
    requires genesis.validators != [] && chain != []
    requires InitialLedger(genesis, keystore, taxes).Ok? && InitialLedger(genesis, other, taxes).Ok?
    requires Durable(d, chain, genesis, InitialLedger(genesis, keystore, taxes).value)
    requires Boot(chain, d.state, InitialLedger(genesis, other, taxes).value, genesis, other).Ok?
    ensures var passed := InitialLedger(genesis, other, taxes).value;
            && Boot(chain, d.state, passed, genesis, other) == Replay(chain, passed)
            && Durable(d, chain, genesis, passed)
  {
    hide Boot, Apply, CheckBlock, KeysSuffice, Linked;
    var first, passed := InitialLedger(genesis, keystore, taxes).value, InitialLedger(genesis, other, taxes).value;
    RestartAcceptsIff(d, chain, genesis, keystore, other, taxes);
    InitialLedgersDifferInKeys(genesis, keystore, other, taxes);
    ReplayIsRun(chain, first);
    ReplayIsRun(chain, passed);
    RunUnderOtherKeys(ChainOps(chain), first, passed.keys);
  }

  lemma LifeKeepsDurable(s: Moment, t: Moment, genesis: Genesis, taxes: TaxTable)
    requires genesis.validators != [] && InitialLedger(genesis, s.keystore, taxes).Ok?
    requires Durable(s.disk, s.chain, genesis, InitialLedger(genesis, s.keystore, taxes).value)
    requires Lives(s, t, genesis, taxes)
    ensures InitialLedger(genesis, t.keystore, taxes).Ok?
    ensures Durable(t.disk, t.chain, genesis, InitialLedger(genesis, t.keystore, taxes).value)
  {
    hide Boot, InitialLedger, Replay, Persists;
    if Updates(s, t, genesis, taxes) {
      PersistsKeepsDurable(s.disk, t.disk, s.chain, t.chain, genesis, InitialLedger(genesis, s.keystore, taxes).value);
    } else if s.chain != [] {
      RestartRebases(s.disk, s.chain, genesis, s.keystore, t.keystore, taxes);
    }
  }

  /** After any number of updates, crashes and restarts under changing keystores the store holds exactly the chain so
      far and the projection of its replay from the keystore last started with. */
  lemma {:induction false} HistoryIsDurable(moments: seq<Moment>, genesis: Genesis, taxes: TaxTable, i: nat)
    requires genesis.validators != [] && IsHistory(moments, genesis, taxes) && i < |moments|
    ensures InitialLedger(genesis, moments[i].keystore, taxes).Ok?
    ensures Durable(moments[i].disk, moments[i].chain, genesis,
                    InitialLedger(genesis, moments[i].keystore, taxes).value)
  {
    hide InitialLedger, Lives;
    if i > 0 {
      HistoryIsDurable(moments, genesis, taxes, i - 1);
      assert Lives(moments[i - 1], moments[i - 1 + 1], genesis, taxes);
      LifeKeepsDurable(moments[i - 1], moments[i], genesis, taxes);
    }
  }

  /** The promised case: a crash between any two store transactions of any such life, and a start with the keystore last
      started with, rebuilds exactly chain and live ledger. */
  lemma RestartRecovers(moments: seq<Moment>, i: nat, genesis: Genesis, taxes: TaxTable, list: seq<Block>)
    requires genesis.validators != [] && IsHistory(moments, genesis, taxes)
    requires i < |moments| && moments[i].chain != []
    requires InitialLedger(genesis, moments[i].keystore, taxes).Ok?
    requires IsListing(list, moments[i].disk.blocks)
    ensures var now := moments[i];
            var first := InitialLedger(genesis, now.keystore, taxes).value;
            list == now.chain && Boot(list, now.disk.state, first, genesis, now.keystore) == Replay(now.chain, first)
  {
    hide Boot, InitialLedger, CheckBlock, Lives;
    var now := moments[i];
    HistoryIsDurable(moments, genesis, taxes, i);
    AcceptedHeights(now.chain, InitialLedger(genesis, now.keystore, taxes).value);
    ListingOfChain(list, now.chain);
    RestartRecoversIff(now.disk, now.chain, genesis, now.keystore, now.keystore, taxes);
  }

  /** Both writes of a first start are updates. */
  lemma FirstStartPersists(genesis: Genesis, first: Ledger)
    requires genesis.validators != []
    ensures var g := GenesisBlock(genesis);
            && Persists(Disk(map[], None), Disk(map[0 := g], None), [], [g], genesis, first)
            && Persists(Disk(map[0 := g], None), Disk(map[0 := g], Some(Project(first))), [g], [g], genesis, first)
  {
    var none: map<int, Block> := map[];
    assert none[0 := GenesisBlock(genesis)] == map[0 := GenesisBlock(genesis)];
  }

  /** What an accepted AppendBlock writes is an update, and the chain with the block replays to its ledger. */
  lemma AppendPersists(d: Disk, chain: seq<Block>, b: Block, live: Ledger, next: Ledger, genesis: Genesis,
                       first: Ledger)
    requires genesis.validators != [] && chain != []
    requires Replay(chain, first) == Ok(live) && CheckBlock(b, chain[|chain| - 1], live) == Ok(next)
    ensures Persists(d, Disk(d.blocks[b.height := b], Some(Project(next))), chain, chain + [b], genesis, first)
    ensures Replay(chain + [b], first) == Ok(next)
  {
    hide CheckBlock;
    ReplaySnoc(chain, b, first);
    assert (chain + [b])[..|chain|] == chain;
  }

  lemma {:induction false} CloseNeedsKey(ops: seq<Op>, i: nat)
    requires i < |ops| && ops[i].CloseOp? && ops[i].close.account !in Touched(ops[..i])
    ensures ops[i].close.account in Needed(ops)
    decreases |ops|
  {
    if i == |ops| - 1 {
    } else {
      var init := ops[..|ops| - 1];
      assert init[..i] == ops[..i];
      CloseNeedsKey(init, i);
    }
  }

  /** The chain keeps needing the key of a genesis account after that account is closed: a keystore from which
      the entry was removed at closing time no longer starts the node. */
  lemma RemovingClosedAccountBreaksRestart(d: Disk, chain: seq<Block>, genesis: Genesis, keystore: Keystore,
                                           other: Keystore, taxes: TaxTable, i: nat)
    requires genesis.validators != [] && chain != []
    requires InitialLedger(genesis, keystore, taxes).Ok? && InitialLedger(genesis, other, taxes).Ok?
    requires Durable(d, chain, genesis, InitialLedger(genesis, keystore, taxes).value)
    requires i < |ChainOps(chain)| && ChainOps(chain)[i].CloseOp?
    requires ChainOps(chain)[i].close.account !in Touched(ChainOps(chain)[..i])
    requires forall e :: e in other ==> e.account != ChainOps(chain)[i].close.account
    ensures Boot(chain, d.state, InitialLedger(genesis, other, taxes).value, genesis, other).Err?
  {
    var ops, a := ChainOps(chain), ChainOps(chain)[i].close.account;
    var first := InitialLedger(genesis, keystore, taxes).value;
    CloseNeedsKey(ops, i);
    RestartAcceptsIff(d, chain, genesis, keystore, other, taxes);
    KeystoreDomain(other, a);
    ReplayIsRun(chain, first);
    ClosedHadKey(ops, i, first);
  }

  lemma ClosedHadKey(ops: seq<Op>, i: nat, l: Ledger)
    requires i < |ops| && Run(ops, l).Ok? && ops[i].CloseOp? && ops[i].close.account !in Touched(ops[..i])
    ensures ops[i].close.account in l.keys
  {
    ErrorBefore(ops, i, l);
    OpKeys(ops[i], Run(ops[..i], l).value);
    RunKeys(ops[..i], l);
    KeysWhereTouched(ops[..i], l.keys, l.keys, ops[i].close.account);
  }

  lemma {:induction false} KeystoreDomain(entries: Keystore, a: AccountID)
    requires AddKeystore(entries, map[]).Ok? && forall e :: e in entries ==> e.account != a
    ensures a !in AddKeystore(entries, map[]).value
  {
    if entries != [] {
      assert entries[|entries| - 1] in entries;
      KeystoreDomain(entries[..|entries| - 1], a);
    }
  }

  lemma ErrorBefore(ops: seq<Op>, i: nat, l: Ledger)
    requires i < |ops| && Run(ops, l).Ok?
    ensures Run(ops[..i], l).Ok? && Apply(ops[i], Run(ops[..i], l).value).Ok?
  {
    assert ops[..i + 1][..i] == ops[..i];
    if Run(ops[..i + 1], l).Err? {
      ErrorSticks(ops, i + 1, l);
    }
  }
}
