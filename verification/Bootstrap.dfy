/** Start-up: genesis and keystore into a ledger (`config/config.go`, `internal/node/bootstrap.go`). */
module Bootstrap {
  import opened Domain
  import opened Crypto
  import opened LedgerRules
  import opened LedgerEffects
  import opened LedgerState

  datatype ValidatorConfig = ValidatorConfig(id: string, publicKey: KeyText<PublicKey>)

  datatype AccountConfig = AccountConfig(id: AccountID, kind: AccountType, balance: int)

  datatype KeystoreEntry = KeystoreEntry(account: AccountID, privateKey: KeyText<PrivateKey>)

  type Keystore = seq<KeystoreEntry>

  datatype Genesis = Genesis(chainId: string, time: Option<Timestamp>, maxTxsPerBlock: int, allowedTax: seq<AccountID>,
                             validators: seq<ValidatorConfig>, accounts: seq<AccountConfig>)

  // ---------------------------------------------------------------------------------------------
  // Tables read from the configuration; later entries override earlier ones
  // ---------------------------------------------------------------------------------------------

  function GenesisAccounts(configs: seq<AccountConfig>): Accounts {
    if configs == [] then map[] else
      var last := configs[|configs| - 1];
      GenesisAccounts(configs[..|configs| - 1])[last.id := Account(last.id, last.kind, last.balance)]
  }

  function AddValidators(configs: seq<ValidatorConfig>, base: KeyTable): Result<KeyTable> {
    if configs == [] then Ok(base) else
      var before := AddValidators(configs[..|configs| - 1], base);
      var last := configs[|configs| - 1];
      if before.Err? then before
      else if ParseKey(last.publicKey).Err? then Err(ParseKey(last.publicKey).error)
      else Ok(before.value[last.id := ParseKey(last.publicKey).value])
  }

  function AddKeystore(entries: Keystore, base: KeyTable): Result<KeyTable> {
    if entries == [] then Ok(base) else
      var before := AddKeystore(entries[..|entries| - 1], base);
      var last := entries[|entries| - 1];
      if before.Err? then before
      else if ParseKey(last.privateKey).Err? then Err(ParseKey(last.privateKey).error)
      else Ok(before.value[last.account := PublicOf(ParseKey(last.privateKey).value)])
  }

  function GenesisValidators(genesis: Genesis): Result<KeyTable> { AddValidators(genesis.validators, map[]) }

  predicate TaxesValid(taxes: TaxTable, allowed: seq<AccountID>) {
    && taxes != map[]
    && forall code :: code in taxes ==>
         0 <= taxes[code].rateBps && taxes[code].taxAccount != "" && taxes[code].taxAccount in allowed
  }

  function AllowedSet(genesis: Genesis): set<AccountID> { set id | id in genesis.allowedTax }

  function Hydrate(l: Ledger, genesis: Genesis, keystore: Keystore): Result<Ledger> {
    var validators := AddValidators(genesis.validators, l.validators);
    if validators.Err? then Err(validators.error) else
      var keys := AddKeystore(keystore, l.keys);
      if keys.Err? then Err(keys.error) else Ok(l.(validators := validators.value, keys := keys.value))
  }

  /** The ledger before any block; the taxes are checked separately. */
  function InitialLedger(genesis: Genesis, keystore: Keystore, taxes: TaxTable): Result<Ledger> {
    Hydrate(Ledger(GenesisAccounts(genesis.accounts), taxes, AllowedSet(genesis), map[], map[]), genesis, keystore)
  }

  lemma {:induction false} AddValidatorsMerges(configs: seq<ValidatorConfig>, base: KeyTable)
    ensures AddValidators(configs, base).Ok? <==> AddValidators(configs, map[]).Ok?
    ensures AddValidators(configs, base).Ok? ==>
              AddValidators(configs, base).value == base + AddValidators(configs, map[]).value
    ensures AddValidators(configs, base).Err? ==> AddValidators(configs, base) == AddValidators(configs, map[])
  {
    if configs != [] {
      AddValidatorsMerges(configs[..|configs| - 1], base);
    }
  }

  lemma {:induction false} AddKeystoreMerges(entries: Keystore, base: KeyTable)
    ensures AddKeystore(entries, base).Ok? <==> AddKeystore(entries, map[]).Ok?
    ensures AddKeystore(entries, base).Ok? ==>
              AddKeystore(entries, base).value == base + AddKeystore(entries, map[]).value
    ensures AddKeystore(entries, base).Err? ==> AddKeystore(entries, base) == AddKeystore(entries, map[])
  {
    if entries != [] {
      AddKeystoreMerges(entries[..|entries| - 1], base);
    }
  }

  /** Hydrating a ledger that was built from the same configuration changes nothing. */
  lemma HydrateIdempotent(genesis: Genesis, keystore: Keystore, l: Ledger)
    requires Hydrate(l, genesis, keystore).Ok?
    ensures Hydrate(Hydrate(l, genesis, keystore).value, genesis, keystore) == Hydrate(l, genesis, keystore)
  {
    var once := Hydrate(l, genesis, keystore).value;
    AddValidatorsMerges(genesis.validators, l.validators);
    AddValidatorsMerges(genesis.validators, once.validators);
    AddKeystoreMerges(keystore, l.keys);
    AddKeystoreMerges(keystore, once.keys);
    var v, k := AddValidators(genesis.validators, map[]).value, AddKeystore(keystore, map[]).value;
    assert l.validators + v + v == l.validators + v;
    assert l.keys + k + k == l.keys + k;
  }

  lemma {:induction false} GenesisAccountsNonNegative(configs: seq<AccountConfig>)
    requires forall i :: 0 <= i < |configs| ==> 0 <= configs[i].balance
    ensures NonNegative(GenesisAccounts(configs))
  {
    if configs != [] {
      GenesisAccountsNonNegative(configs[..|configs| - 1]);
    }
  }

  /** What start-up accepts is a sound ledger, given non-negative genesis balances. */
  lemma InitialLedgerIsSound(genesis: Genesis, keystore: Keystore, taxes: TaxTable)
    requires TaxesValid(taxes, genesis.allowedTax)
    requires forall i :: 0 <= i < |genesis.accounts| ==> 0 <= genesis.accounts[i].balance
    requires InitialLedger(genesis, keystore, taxes).Ok?
    ensures Sound(InitialLedger(genesis, keystore, taxes).value)
  {
    GenesisAccountsNonNegative(genesis.accounts);
  }

  // ---------------------------------------------------------------------------------------------
  // The procedures
  // ---------------------------------------------------------------------------------------------

  method ValidateTaxes(taxes: TaxTable, allowed: seq<AccountID>) returns (r: Outcome)
    ensures r.Accepted? <==> TaxesValid(taxes, allowed)
  {
    if |taxes| == 0 {
      return Rejected(NoTaxSplits);
    }
    var rest := taxes.Keys;
    while rest != {}
      invariant rest <= taxes.Keys
      invariant forall code :: code in taxes.Keys - rest ==>
                  0 <= taxes[code].rateBps && taxes[code].taxAccount != "" && taxes[code].taxAccount in allowed
    {
      var code :| code in rest;
      if taxes[code].rateBps < 0 {
        return Rejected(NegativeRate(code));
      }
      if taxes[code].taxAccount == "" {
        return Rejected(MissingTaxAccount(code));
      }
      if taxes[code].taxAccount !in allowed {
        return Rejected(TaxAccountNotAllowed(taxes[code].taxAccount));
      }
      rest := rest - {code};
    }
    return Accepted;
  }

  lemma {:induction false} ValidatorErrorSticks(configs: seq<ValidatorConfig>, n: nat, base: KeyTable)
    requires n <= |configs| && AddValidators(configs[..n], base).Err?
    ensures AddValidators(configs, base) == AddValidators(configs[..n], base)
    decreases |configs|
  {
    if n == |configs| {
      assert configs[..n] == configs;
    } else {
      assert configs[..|configs| - 1][..n] == configs[..n];
      ValidatorErrorSticks(configs[..|configs| - 1], n, base);
    }
  }

  lemma {:induction false} KeystoreErrorSticks(entries: Keystore, n: nat, base: KeyTable)
    requires n <= |entries| && AddKeystore(entries[..n], base).Err?
    ensures AddKeystore(entries, base) == AddKeystore(entries[..n], base)
    decreases |entries|
  {
    if n == |entries| {
      assert entries[..n] == entries;
    } else {
      assert entries[..|entries| - 1][..n] == entries[..n];
      KeystoreErrorSticks(entries[..|entries| - 1], n, base);
    }
  }

  method HydrateState(state: State, genesis: Genesis, keystore: Keystore) returns (r: Outcome)
    modifies state`validators, state`keys
    ensures r.Accepted? ==> Hydrate(old(state.View()), genesis, keystore) == Ok(state.View())
    ensures r.Rejected? ==> Hydrate(old(state.View()), genesis, keystore) == Err(r.error)
  {
    for i := 0 to |genesis.validators|
      invariant AddValidators(genesis.validators[..i], old(state.validators)) == Ok(state.validators)
      invariant state.keys == old(state.keys)
    {
      assert genesis.validators[..i + 1][..i] == genesis.validators[..i];
      var pub := ParseKey(genesis.validators[i].publicKey);
      if pub.Err? {
        ValidatorErrorSticks(genesis.validators, i + 1, old(state.validators));
        return Rejected(pub.error);
      }
      state.AddValidator(genesis.validators[i].id, pub.value);
    }
    assert genesis.validators[..|genesis.validators|] == genesis.validators;
    for i := 0 to |keystore|
      invariant AddValidators(genesis.validators, old(state.validators)) == Ok(state.validators)
      invariant AddKeystore(keystore[..i], old(state.keys)) == Ok(state.keys)
    {
      assert keystore[..i + 1][..i] == keystore[..i];
      var priv := ParseKey(keystore[i].privateKey);
      if priv.Err? {
        KeystoreErrorSticks(keystore, i + 1, old(state.keys));
        return Rejected(priv.error);
      }
      state.SetAccountPubKey(keystore[i].account, PublicOf(priv.value));
    }
    assert keystore[..|keystore|] == keystore;
    return Accepted;
  }

  method SetGenesisAccounts(state: State, configs: seq<AccountConfig>)
    requires state.accounts == map[]
    modifies state`accounts
    ensures state.accounts == GenesisAccounts(configs)
  {
    for i := 0 to |configs|
      invariant state.accounts == GenesisAccounts(configs[..i])
    {
      assert configs[..i + 1][..i] == configs[..i];
      state.SetAccount(Account(configs[i].id, configs[i].kind, configs[i].balance));
    }
    assert configs[..|configs|] == configs;
  }

  method BuildInitialState(genesis: Genesis, keystore: Keystore, taxes: TaxTable) returns (r: Result<State>)
    ensures r.Ok? <==> TaxesValid(taxes, genesis.allowedTax) && InitialLedger(genesis, keystore, taxes).Ok?
    ensures r.Ok? ==> fresh(r.value) && InitialLedger(genesis, keystore, taxes) == Ok(r.value.View())
  {
    var valid := ValidateTaxes(taxes, genesis.allowedTax);
    if valid.Rejected? {
      return Err(valid.error);
    }
    var state := new State(genesis.allowedTax, taxes);
    SetGenesisAccounts(state, genesis.accounts);
    var hydrated := HydrateState(state, genesis, keystore);
    if hydrated.Rejected? {
      return Err(hydrated.error);
    }
    return Ok(state);
  }
}
