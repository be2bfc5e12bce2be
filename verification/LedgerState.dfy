/** The mutable ledger object of `internal/ledger/state.go`. Every method is specified by the function
    of module LedgerRules for the same rule. */
module LedgerState {
  import opened Domain
  import opened Crypto
  import opened LedgerRules
  import opened LedgerEffects

  /** Copies a map entry by entry, in whatever order the range loop visits the keys. */
  method CopyMap<K, V>(m: map<K, V>) returns (copy: map<K, V>)
    ensures copy == m
  {
    copy := map[];
    var rest := m.Keys;
    while rest != {}
      invariant rest <= m.Keys
      invariant copy.Keys == m.Keys - rest
      invariant forall k :: k in copy ==> copy[k] == m[k]
    {
      var k :| k in rest;
      copy, rest := copy[k := m[k]], rest - {k};
    }
  }

  class State {
    var accounts: Accounts
    var taxSplit: TaxTable
    var allowed: set<AccountID>
    var validators: KeyTable
    var keys: KeyTable

    ghost function View(): Ledger
      reads this
    {
      Ledger(accounts, taxSplit, allowed, validators, keys)
    }

    constructor (allowedTax: seq<AccountID>, taxes: TaxTable)
      ensures View() == Ledger(map[], taxes, set id | id in allowedTax, map[], map[])
    {
      accounts, validators, keys := map[], map[], map[];
      taxSplit := taxes;
      allowed := set id | id in allowedTax;
    }

    method Clone() returns (clone: State)
      ensures fresh(clone) && clone.View() == View()
    {
      var taxes := CopyMap(taxSplit);
      clone := new State([], taxes);
      clone.allowed := allowed;
      clone.accounts := CopyMap(accounts);
      clone.validators := CopyMap(validators);
      clone.keys := CopyMap(keys);
    }

    method SetAccount(account: Account)
      modifies this`accounts
      ensures accounts == old(accounts)[account.id := account]
    {
      accounts := accounts[account.id := account];
    }

    method AddValidator(id: string, pub: PublicKey)
      modifies this`validators
      ensures validators == old(validators)[id := pub]
    {
      validators := validators[id := pub];
    }

    method SetAccountPubKey(id: AccountID, pub: PublicKey)
      modifies this`keys
      ensures keys == old(keys)[id := pub]
    {
      keys := keys[id := pub];
    }

    method RemoveAccountPubKey(id: AccountID)
      modifies this`keys
      ensures keys == old(keys) - {id}
    {
      keys := keys - {id};
    }

    // A read-modify-write of one entry: `acct := m[id]; acct.Balance += amount; m[id] = acct`.
    method AddToBalance(id: AccountID, amount: int)
      modifies this`accounts
      ensures accounts == Credit(old(accounts), id, amount)
    {
      var account := if id in accounts then accounts[id] else ZERO_ACCOUNT;
      account := account.(balance := account.balance + amount);
      accounts := accounts[id := account];
    }
  }

  // ---------------------------------------------------------------------------------------------
  // Validation only reads
  // ---------------------------------------------------------------------------------------------

  method ValidateItems(items: seq<LineItem>, state: State) returns (r: Outcome)
    ensures r == CheckItems(items, state.View())
  {
    ghost var l := state.View();
    r := Accepted;
    for i := 0 to |items|
      invariant r == Accepted == CheckItems(items[..i], l)
    {
      assert items[..i + 1][..i] == items[..i];
      var itemOutcome := ValidateItem(items[i], state);
      if itemOutcome.Rejected? {
        RejectionSticks(items, i + 1, l);
        return itemOutcome;
      }
    }
    assert items[..|items|] == items;
  }

  lemma {:induction false} RejectionSticks(items: seq<LineItem>, n: nat, l: Ledger)
    requires n <= |items| && CheckItems(items[..n], l).Rejected?
    ensures CheckItems(items, l) == CheckItems(items[..n], l)
    decreases |items|
  {
    if n == |items| {
      assert items[..n] == items;
    } else {
      assert items[..|items| - 1][..n] == items[..n];
      RejectionSticks(items[..|items| - 1], n, l);
    }
  }

  lemma {:induction false} CodeRejectionSticks(codes: seq<TaxCode>, n: nat, l: Ledger)
    requires n <= |codes| && CheckCodes(codes[..n], l).Rejected?
    ensures CheckCodes(codes, l) == CheckCodes(codes[..n], l)
    decreases |codes|
  {
    if n == |codes| {
      assert codes[..n] == codes;
    } else {
      assert codes[..|codes| - 1][..n] == codes[..n];
      CodeRejectionSticks(codes[..|codes| - 1], n, l);
    }
  }

  lemma {:induction false} DiscountRejectionSticks(discounts: seq<Discount>, n: nat, l: Ledger)
    requires n <= |discounts| && CheckDiscounts(discounts[..n], l).Rejected?
    ensures CheckDiscounts(discounts, l) == CheckDiscounts(discounts[..n], l)
    decreases |discounts|
  {
    if n == |discounts| {
      assert discounts[..n] == discounts;
    } else {
      assert discounts[..|discounts| - 1][..n] == discounts[..n];
      DiscountRejectionSticks(discounts[..|discounts| - 1], n, l);
    }
  }

  method ValidateCodes(codes: seq<TaxCode>, state: State) returns (r: Outcome)
    ensures r == CheckCodes(codes, state.View())
  {
    ghost var l := state.View();
    for i := 0 to |codes|
      invariant CheckCodes(codes[..i], l) == Accepted
    {
      assert codes[..i + 1][..i] == codes[..i];
      if codes[i] !in state.taxSplit {
        CodeRejectionSticks(codes, i + 1, l);
        return Rejected(UnknownTaxCode(codes[i]));
      }
      var split := state.taxSplit[codes[i]];
      if split.taxAccount !in state.allowed {
        CodeRejectionSticks(codes, i + 1, l);
        return Rejected(TaxAccountNotAllowed(split.taxAccount));
      }
    }
    assert codes[..|codes|] == codes;
    return Accepted;
  }

  method ValidateDiscounts(discounts: seq<Discount>, state: State) returns (r: Outcome)
    ensures r == CheckDiscounts(discounts, state.View())
  {
    ghost var l := state.View();
    for i := 0 to |discounts|
      invariant CheckDiscounts(discounts[..i], l) == Accepted
    {
      assert discounts[..i + 1][..i] == discounts[..i];
      if discounts[i].amount < 0 {
        DiscountRejectionSticks(discounts, i + 1, l);
        return Rejected(NegativeDiscount);
      }
      if discounts[i].taxAccount !in state.allowed {
        DiscountRejectionSticks(discounts, i + 1, l);
        return Rejected(DiscountAccountNotAllowed(discounts[i].taxAccount));
      }
    }
    assert discounts[..|discounts|] == discounts;
    return Accepted;
  }

  method ValidateItem(item: LineItem, state: State) returns (r: Outcome)
    ensures r == CheckItem(item, state.View())
  {
    if item.amount <= 0 {
      return Rejected(NonPositiveAmount);
    }
    r := ValidateCodes(item.taxCodes, state);
    if r.Accepted? {
      r := ValidateDiscounts(item.discounts, state);
    }
  }

  method ValidateTransaction(tx: Payment, state: State) returns (r: Outcome)
    ensures r == CheckPayment(tx, state.View())
  {
    if tx.id == "" {
      return Rejected(MissingId);
    }
    if tx.payer.id == "" || tx.payee.id == "" {
      return Rejected(MissingParty);
    }
    if |tx.items| == 0 {
      return Rejected(NoItems);
    }
    r := ValidateItems(tx.items, state);
    if r.Rejected? {
      return;
    }
    var gross := GrossAmount(tx);
    var taxTotal := TaxTotal(tx, state.taxSplit);
    var discountTotal := DiscountTotal(tx);
    var net := NetToPayee(tx, state.taxSplit);
    r := if gross <= 0 then Rejected(NonPositiveGross)
         else if taxTotal + discountTotal + net != gross then Rejected(SplitMismatch)
         else if net < 0 then Rejected(NegativeNet)
         else if tx.payer.id !in state.accounts then Rejected(AccountNotFound(tx.payer.id))
         else if state.accounts[tx.payer.id].balance < gross then Rejected(InsufficientBalance)
         else if tx.signature == NoSignature then Rejected(MissingSignature)
         else if tx.payer.id !in state.keys then Rejected(KeyNotFound(tx.payer.id))
         else if !Verify(state.keys[tx.payer.id], PaymentBytes(tx), tx.signature) then Rejected(InvalidSignature)
         else Accepted;
  }

  method VerifyAnyValidator(state: State, message: Message, signature: Signature) returns (found: bool)
    ensures found <==> SignedByAValidator(state.View(), message, signature)
  {
    var rest := state.validators.Keys;
    while rest != {}
      invariant rest <= state.validators.Keys
      invariant forall id :: id in state.validators.Keys - rest ==> !Verify(state.validators[id], message, signature)
    {
      var id :| id in rest;
      if Verify(state.validators[id], message, signature) {
        return true;
      }
      rest := rest - {id};
    }
    return false;
  }

  method ValidateAccountCreate(tx: AccountCreate, state: State) returns (r: Outcome)
    ensures r == CheckCreate(tx, state.View())
  {
    if tx.id == "" {
      return Rejected(MissingId);
    }
    if tx.account.id == "" {
      return Rejected(MissingAccountId);
    }
    match tx.account.kind {
      case Person | Merchant =>
      case _ => return Rejected(TypeNotAllowed(tx.account.kind));
    }
    if tx.account.balance != 0 {
      return Rejected(NonZeroBalance);
    }
    if tx.account.id in state.accounts {
      return Rejected(AccountExists(tx.account.id));
    }
    if tx.publicKey == NoText {
      return Rejected(MissingPublicKey);
    }
    var key := ParseKey(tx.publicKey);
    if key.Err? {
      return Rejected(key.error);
    }
    if tx.signature == NoSignature {
      return Rejected(MissingSignature);
    }
    var signed := VerifyAnyValidator(state, CreateBytes(tx), tx.signature);
    return if signed then Accepted else Rejected(InvalidSignature);
  }

  method ValidateAccountClose(tx: AccountClose, state: State) returns (r: Outcome)
    ensures r == CheckClose(tx, state.View())
  {
    if tx.id == "" {
      return Rejected(MissingId);
    }
    if tx.account == "" {
      return Rejected(MissingAccountId);
    }
    if tx.account !in state.accounts {
      return Rejected(AccountNotFound(tx.account));
    }
    var account := state.accounts[tx.account];
    match account.kind {
      case Person | Merchant =>
      case _ => return Rejected(TypeNotAllowed(account.kind));
    }
    if tx.publicKey == NoText {
      return Rejected(MissingPublicKey);
    }
    var keyFromTx := ParseKey(tx.publicKey);
    if keyFromTx.Err? {
      return Rejected(keyFromTx.error);
    }
    if tx.account !in state.keys {
      return Rejected(KeyNotFound(tx.account));
    }
    if keyFromTx.value != state.keys[tx.account] {
      return Rejected(KeyMismatch);
    }
    if account.kind == Merchant {
      if account.balance != 0 {
        return Rejected(NonZeroBalance);
      }
      if tx.destination != "" {
        return Rejected(DestinationGiven);
      }
    } else {
      var destination := CloseDestination(tx);
      if destination == tx.account {
        return Rejected(DestinationIsSelf);
      }
      if destination !in state.accounts {
        return Rejected(DestinationNotFound(destination));
      }
    }
    if tx.signature == NoSignature {
      return Rejected(MissingSignature);
    }
    var signed: bool;
    if account.kind == Person {
      signed := VerifyAnyValidator(state, CloseBytes(tx), tx.signature);
    } else {
      signed := Verify(state.keys[tx.account], CloseBytes(tx), tx.signature);
    }
    return if signed then Accepted else Rejected(InvalidSignature);
  }

  // ---------------------------------------------------------------------------------------------
  // Application: all or nothing
  // ---------------------------------------------------------------------------------------------

  ghost predicate CodesKnown(items: seq<LineItem>, taxes: TaxTable) {
    forall item :: item in items ==> forall code :: code in item.taxCodes ==> code in taxes
  }

  lemma CheckedItemsHaveKnownCodes(items: seq<LineItem>, l: Ledger)
    requires CheckItems(items, l).Accepted?
    ensures CodesKnown(items, l.taxes)
  {
    ItemsAccepted(items, l);
    forall item | item in items ensures forall code :: code in item.taxCodes ==> code in l.taxes {
      assert ItemAllowed(item, l);
    }
  }

  // The tax loop over one item; an unknown code leaves it half way, with earlier codes already posted.
  method PostTaxes(item: LineItem, state: State) returns (r: Outcome)
    modifies state`accounts
    ensures r.Accepted? ==>
              state.accounts == Post(old(state.accounts), TaxPostings(item.taxCodes, item.amount, state.taxSplit))
    ensures r.Accepted? <==> forall code :: code in item.taxCodes ==> code in state.taxSplit
  {
    var codes := item.taxCodes;
    for i := 0 to |codes|
      invariant state.accounts == Post(old(state.accounts), TaxPostings(codes[..i], item.amount, state.taxSplit))
      invariant forall k :: 0 <= k < i ==> codes[k] in state.taxSplit
    {
      assert codes[..i + 1][..i] == codes[..i];
      if codes[i] !in state.taxSplit {
        return Rejected(UnknownTaxCode(codes[i]));
      }
      var split := state.taxSplit[codes[i]];
      var product := split.rateBps * item.amount;
      state.AddToBalance(split.taxAccount, TruncDiv(product, BPS));
      PostConcat(old(state.accounts), TaxPostings(codes[..i], item.amount, state.taxSplit),
                 [Posting(split.taxAccount, Tax(split.rateBps, item.amount))]);
      PostOne(Post(old(state.accounts), TaxPostings(codes[..i], item.amount, state.taxSplit)), split.taxAccount,
              Tax(split.rateBps, item.amount));
    }
    assert codes[..|codes|] == codes;
    return Accepted;
  }

  method PostDiscounts(item: LineItem, state: State)
    modifies state`accounts
    ensures state.accounts == Post(old(state.accounts), DiscountPostings(item.discounts))
  {
    var discounts := item.discounts;
    for i := 0 to |discounts|
      invariant state.accounts == Post(old(state.accounts), DiscountPostings(discounts[..i]))
    {
      assert discounts[..i + 1][..i] == discounts[..i];
      var discount := discounts[i];
      ghost var before := DiscountPostings(discounts[..i]);
      if discount.amount == 0 {
        assert before + [] == before;
        continue;
      }
      PostConcat(old(state.accounts), before, [Posting(discount.taxAccount, discount.amount)]);
      PostOne(state.accounts, discount.taxAccount, discount.amount);
      state.AddToBalance(discount.taxAccount, discount.amount);
    }
    assert discounts[..|discounts|] == discounts;
  }

  method PostItems(items: seq<LineItem>, state: State) returns (r: Outcome)
    modifies state`accounts
    ensures r.Accepted? ==> state.accounts == Post(old(state.accounts), ItemsPostings(items, state.taxSplit))
    ensures r.Accepted? <==> CodesKnown(items, state.taxSplit)
  {
    for i := 0 to |items|
      invariant state.accounts == Post(old(state.accounts), ItemsPostings(items[..i], state.taxSplit))
      invariant CodesKnown(items[..i], state.taxSplit)
    {
      assert items[..i + 1][..i] == items[..i];
      var item := items[i];
      ghost var before := ItemsPostings(items[..i], state.taxSplit);
      ghost var taxes := TaxPostings(item.taxCodes, item.amount, state.taxSplit);
      r := PostTaxes(item, state);
      if r.Rejected? {
        return;
      }
      PostDiscounts(item, state);
      PostConcat(Post(old(state.accounts), before), taxes, DiscountPostings(item.discounts));
      PostConcat(old(state.accounts), before, ItemPostings(item, state.taxSplit));
      assert items[..i + 1] == items[..i] + [item];
    }
    assert items[..|items|] == items;
    return Accepted;
  }

  lemma PostingsInOrder(tx: Payment, accounts: Accounts, taxes: TaxTable)
    ensures Post(Credit(Credit(accounts, tx.payer.id, -Gross(tx)), tx.payee.id, Net(tx, taxes)),
                 ItemsPostings(tx.items, taxes))
            == Post(accounts, Postings(tx, taxes))
  {
    var debit, credit := Posting(tx.payer.id, -Gross(tx)), Posting(tx.payee.id, Net(tx, taxes));
    PostOne(accounts, debit.account, debit.amount);
    PostOne(Post(accounts, [debit]), credit.account, credit.amount);
    PostConcat(accounts, [debit], [credit]);
    PostConcat(accounts, [debit, credit], ItemsPostings(tx.items, taxes));
    assert [debit] + [credit] == [debit, credit];
  }

  /** Either the whole payment is posted or the state is untouched: the unknown-code return in the middle
      of the posting loop cannot happen after validation. */
  method ApplyTransaction(tx: Payment, state: State) returns (r: Outcome)
    modifies state`accounts
    ensures r == CheckPayment(tx, old(state.View()))
    ensures state.View() == if r.Accepted? then Paid(tx, old(state.View())) else old(state.View())
  {
    hide Postings, ItemsPostings, Post;
    r := ValidateTransaction(tx, state);
    if r.Rejected? {
      return;
    }
    PostingsInOrder(tx, state.accounts, state.taxSplit);
    CheckedItemsHaveKnownCodes(tx.items, state.View());
    var gross := GrossAmount(tx);
    var net := NetToPayee(tx, state.taxSplit);
    state.AddToBalance(tx.payer.id, -gross);
    state.AddToBalance(tx.payee.id, net);
    r := PostItems(tx.items, state);
  }

  method ApplyAccountCreate(tx: AccountCreate, state: State) returns (r: Outcome)
    modifies state`accounts, state`keys
    ensures r == CheckCreate(tx, old(state.View()))
    ensures state.View() == if r.Accepted? then Created(tx, old(state.View())) else old(state.View())
  {
    r := ValidateAccountCreate(tx, state);
    if r.Rejected? {
      return;
    }
    var pub := ParseKey(tx.publicKey);
    state.SetAccount(Account(tx.account.id, tx.account.kind, 0));
    state.SetAccountPubKey(tx.account.id, pub.value);
  }

  method ApplyAccountClose(tx: AccountClose, state: State) returns (r: Outcome)
    modifies state`accounts, state`keys
    ensures r == CheckClose(tx, old(state.View()))
    ensures state.View() == if r.Accepted? then Closed(tx, old(state.View())) else old(state.View())
  {
    r := ValidateAccountClose(tx, state);
    if r.Rejected? {
      return;
    }
    var account := state.accounts[tx.account];
    if account.kind == Person && account.balance > 0 {
      state.AddToBalance(CloseDestination(tx), account.balance);
    }
    state.accounts := state.accounts - {tx.account};
    state.RemoveAccountPubKey(tx.account);
  }

  // The three loops of ValidateBlock. An error abandons the clone half way, so only the error is specified.

  method ReplayCreates(txs: seq<AccountCreate>, next: State) returns (r: Outcome)
    modifies next
    ensures r.Accepted? ==> Run(CreateOps(txs), old(next.View())) == Ok(next.View())
    ensures r.Rejected? ==> Run(CreateOps(txs), old(next.View())) == Err(r.error)
  {
    ghost var l, ops := next.View(), CreateOps(txs);
    for i := 0 to |txs|
      invariant Run(ops[..i], l) == Ok(next.View())
    {
      RunNext(ops, i, l);
      r := ApplyAccountCreate(txs[i], next);
      if r.Rejected? {
        ErrorSticks(ops, i + 1, l);
        return;
      }
    }
    assert ops[..|ops|] == ops;
    return Accepted;
  }

  method ReplayPayments(txs: seq<Payment>, next: State) returns (r: Outcome)
    modifies next
    ensures r.Accepted? ==> Run(PayOps(txs), old(next.View())) == Ok(next.View())
    ensures r.Rejected? ==> Run(PayOps(txs), old(next.View())) == Err(r.error)
  {
    ghost var l, ops := next.View(), PayOps(txs);
    for i := 0 to |txs|
      invariant Run(ops[..i], l) == Ok(next.View())
    {
      RunNext(ops, i, l);
      r := ApplyTransaction(txs[i], next);
      if r.Rejected? {
        ErrorSticks(ops, i + 1, l);
        return;
      }
    }
    assert ops[..|ops|] == ops;
    return Accepted;
  }

  method ReplayCloses(txs: seq<AccountClose>, next: State) returns (r: Outcome)
    modifies next
    ensures r.Accepted? ==> Run(CloseOps(txs), old(next.View())) == Ok(next.View())
    ensures r.Rejected? ==> Run(CloseOps(txs), old(next.View())) == Err(r.error)
  {
    ghost var l, ops := next.View(), CloseOps(txs);
    for i := 0 to |txs|
      invariant Run(ops[..i], l) == Ok(next.View())
    {
      RunNext(ops, i, l);
      r := ApplyAccountClose(txs[i], next);
      if r.Rejected? {
        ErrorSticks(ops, i + 1, l);
        return;
      }
    }
    assert ops[..|ops|] == ops;
    return Accepted;
  }

  /** Replays a block on a clone; the input state is never written. */
  method ValidateBlock(b: Block, prev: Block, state: State) returns (r: Result<State>)
    ensures r.Ok? ==> fresh(r.value) && CheckBlock(b, prev, state.View()) == Ok(r.value.View())
    ensures r.Err? ==> CheckBlock(b, prev, state.View()) == Err(r.error)
  {
    if b.height != prev.height + 1 {
      return Err(BadHeight(prev.height + 1, b.height));
    }
    if b.previousHash != prev.hash {
      return Err(PreviousHashMismatch);
    }
    var bytes := BlockSignBytes(b);
    if b.hash != Sha256(bytes) {
      return Err(HashMismatch);
    }
    if b.validator !in state.validators {
      return Err(UnknownValidator(b.validator));
    }
    if b.signature == NoSignature || !Verify(state.validators[b.validator], bytes, b.signature) {
      return Err(InvalidBlockSignature);
    }
    var next := state.Clone();
    r := ReplayBody(b, next);
  }

  method ReplayBody(b: Block, next: State) returns (r: Result<State>)
    modifies next
    ensures r.Ok? ==> r.value == next && Run(BlockOps(b), old(next.View())) == Ok(next.View())
    ensures r.Err? ==> Run(BlockOps(b), old(next.View())) == Err(r.error)
  {
    ghost var l := next.View();
    RunConcat(CreateOps(b.creates), PayOps(b.payments), l);
    RunConcat(CreateOps(b.creates) + PayOps(b.payments), CloseOps(b.closes), l);
    var outcome := ReplayCreates(b.creates, next);
    if outcome.Rejected? {
      return Err(outcome.error);
    }
    outcome := ReplayPayments(b.payments, next);
    if outcome.Rejected? {
      return Err(outcome.error);
    }
    outcome := ReplayCloses(b.closes, next);
    if outcome.Rejected? {
      return Err(outcome.error);
    }
    return Ok(next);
  }
}
