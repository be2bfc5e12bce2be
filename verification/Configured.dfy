/** What configuration means for the first ledger, entry by entry. */
module Configured {
  import opened Domain
  import opened Crypto
  import opened LedgerRules
  import opened LedgerEffects
  import opened ChainRules
  import opened Bootstrap

  function AccountEntryId(c: AccountConfig): AccountID { c.id }

  function KeyEntryId(e: KeystoreEntry): AccountID { e.account }

  function ValidatorEntryId(v: ValidatorConfig): string { v.id }

  lemma {:induction false} AccountsIndexed(configs: seq<AccountConfig>)
    ensures var index := IndexBy(configs, AccountEntryId, map[]);
            GenesisAccounts(configs) == map id | id in index :: Account(id, index[id].kind, index[id].balance)
  {
    if configs != [] {
      AccountsIndexed(configs[..|configs| - 1]);
    }
    assert forall id :: id in IndexBy(configs, AccountEntryId, map[]) ==>
                          IndexBy(configs, AccountEntryId, map[])[id].id == id by {
      IndexedById(configs);
    }
  }

  lemma {:induction false} IndexedById(configs: seq<AccountConfig>)
    ensures forall id :: id in IndexBy(configs, AccountEntryId, map[]) ==>
                           IndexBy(configs, AccountEntryId, map[])[id].id == id
  {
    if configs != [] {
      IndexedById(configs[..|configs| - 1]);
    }
  }

  lemma {:induction false} KeysIndexed(entries: Keystore)
    requires AddKeystore(entries, map[]).Ok?
    ensures var index, keys := IndexBy(entries, KeyEntryId, map[]), AddKeystore(entries, map[]).value;
            && keys.Keys == index.Keys
            && forall id :: id in index ==>
                 index[id].privateKey.Encoded? && keys[id] == PublicOf(index[id].privateKey.key)
  {
    if entries != [] {
      KeysIndexed(entries[..|entries| - 1]);
    }
  }

  lemma {:induction false} ValidatorsIndexed(configs: seq<ValidatorConfig>)
    requires AddValidators(configs, map[]).Ok?
    ensures var index, table := IndexBy(configs, ValidatorEntryId, map[]), AddValidators(configs, map[]).value;
            && table.Keys == index.Keys
            && forall id :: id in index ==> index[id].publicKey.Encoded? && index[id].publicKey.key == table[id]
  {
    if configs != [] {
      ValidatorsIndexed(configs[..|configs| - 1]);
    }
  }

  lemma {:induction false} KeysWellFormed(entries: Keystore)
    ensures AddKeystore(entries, map[]).Ok? <==> forall e :: e in entries ==> e.privateKey.Encoded?
  {
    if entries != [] {
      KeysWellFormed(entries[..|entries| - 1]);
      assert forall e :: e in entries <==> e in entries[..|entries| - 1] || e == entries[|entries| - 1];
    }
  }

  lemma {:induction false} ValidatorsWellFormed(configs: seq<ValidatorConfig>)
    ensures AddValidators(configs, map[]).Ok? <==> forall v :: v in configs ==> v.publicKey.Encoded?
  {
    if configs != [] {
      ValidatorsWellFormed(configs[..|configs| - 1]);
      assert forall v :: v in configs <==> v in configs[..|configs| - 1] || v == configs[|configs| - 1];
    }
  }

  /** There is a first ledger exactly when every configured key can be decoded. */
  lemma FirstLedgerIff(genesis: Genesis, keystore: Keystore, taxes: TaxTable)
    ensures InitialLedger(genesis, keystore, taxes).Ok? <==>
            && (forall v :: v in genesis.validators ==> v.publicKey.Encoded?)
            && (forall e :: e in keystore ==> e.privateKey.Encoded?)
  {
    KeysWellFormed(keystore);
    ValidatorsWellFormed(genesis.validators);
  }

  /** The first ledger holds exactly the configured accounts, account keys and validators, the last entry of an id
      winning, and the configured taxes and allowed tax accounts. */
  lemma FirstLedgerIsConfigured(genesis: Genesis, keystore: Keystore, taxes: TaxTable, id: string, k: nat)
    requires InitialLedger(genesis, keystore, taxes).Ok?
    ensures var l := InitialLedger(genesis, keystore, taxes).value;
            && (id in l.accounts <==> Occurs(genesis.accounts, AccountEntryId, id))
            && (id in l.keys <==> Occurs(keystore, KeyEntryId, id))
            && (id in l.validators <==> Occurs(genesis.validators, ValidatorEntryId, id))
            && (LastAt(genesis.accounts, AccountEntryId, id, k) ==>
                  l.accounts[id] == Account(id, genesis.accounts[k].kind, genesis.accounts[k].balance))
            && (LastAt(keystore, KeyEntryId, id, k) ==>
                  keystore[k].privateKey.Encoded? && l.keys[id] == PublicOf(keystore[k].privateKey.key))
            && (LastAt(genesis.validators, ValidatorEntryId, id, k) ==>
                  genesis.validators[k].publicKey.Encoded? && l.validators[id] == genesis.validators[k].publicKey.key)
            && l.taxes == taxes && (id in l.allowed <==> id in genesis.allowedTax)
  {
    hide IndexBy, LastAt;
    AccountsIndexed(genesis.accounts);
    KeysIndexed(keystore);
    ValidatorsIndexed(genesis.validators);
    IndexIsLastOccurrence(genesis.accounts, AccountEntryId, id);
    IndexIsLastOccurrence(keystore, KeyEntryId, id);
    IndexIsLastOccurrence(genesis.validators, ValidatorEntryId, id);
  }

  // ---------------------------------------------------------------------------------------------
  // Tax accounts
  // ---------------------------------------------------------------------------------------------

  ghost predicate TaxAccountsAllowed(l: Ledger) {
    forall code :: code in l.taxes ==> l.taxes[code].taxAccount in l.allowed
  }

  lemma {:induction false} CodesNotRefused(codes: seq<TaxCode>, l: Ledger, account: AccountID)
    requires TaxAccountsAllowed(l)
    ensures CheckCodes(codes, l) != Rejected(TaxAccountNotAllowed(account))
  {
    if codes != [] {
      CodesNotRefused(codes[..|codes| - 1], l, account);
    }
  }

  lemma {:induction false} DiscountsNotRefused(discounts: seq<Discount>, l: Ledger, account: AccountID)
    ensures CheckDiscounts(discounts, l) != Rejected(TaxAccountNotAllowed(account))
  {
    if discounts != [] {
      DiscountsNotRefused(discounts[..|discounts| - 1], l, account);
    }
  }

  lemma {:induction false} ItemsNotRefused(items: seq<LineItem>, l: Ledger, account: AccountID)
    requires TaxAccountsAllowed(l)
    ensures CheckItems(items, l) != Rejected(TaxAccountNotAllowed(account))
  {
    hide TaxAccountsAllowed;
    if items != [] {
      var last := items[|items| - 1];
      ItemsNotRefused(items[..|items| - 1], l, account);
      CodesNotRefused(last.taxCodes, l, account);
      DiscountsNotRefused(last.discounts, l, account);
    }
  }

  /** Start-up validates the tax accounts once and for all: no payment on any ledger reached from there is refused
      because of one. */
  lemma TaxAccountsNeverRefused(genesis: Genesis, keystore: Keystore, taxes: TaxTable, ops: seq<Op>, tx: Payment,
                                account: AccountID)
    requires TaxesValid(taxes, genesis.allowedTax) && InitialLedger(genesis, keystore, taxes).Ok?
    requires Run(ops, InitialLedger(genesis, keystore, taxes).value).Ok?
    ensures CheckPayment(tx, Run(ops, InitialLedger(genesis, keystore, taxes).value).value)
            != Rejected(TaxAccountNotAllowed(account))
  {
    hide CheckItems, Run;
    var first := InitialLedger(genesis, keystore, taxes).value;
    RunFrame(ops, first);
    ItemsNotRefused(tx.items, Run(ops, first).value, account);
  }
}
