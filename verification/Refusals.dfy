/** What an error says is true: every refusal names a reason that holds. */
module Refusals {
  import opened Domain
  import opened Crypto
  import opened LedgerRules
  import opened LedgerEffects

  ghost predicate SomeCode(items: seq<LineItem>, code: TaxCode) {
    exists item :: item in items && code in item.taxCodes
  }

  ghost predicate SomeTaxAccount(items: seq<LineItem>, l: Ledger, account: AccountID) {
    exists code :: SomeCode(items, code) && code in l.taxes && l.taxes[code].taxAccount == account
  }

  ghost predicate SomeDiscount(items: seq<LineItem>, d: Discount) {
    exists item :: item in items && d in item.discounts
  }

  /** What the error of a payment's items says about them. */
  ghost predicate ItemsClaim(e: Error, items: seq<LineItem>, l: Ledger) {
    match e
    case NonPositiveAmount => exists item :: item in items && item.amount <= 0
    case UnknownTaxCode(code) => SomeCode(items, code) && code !in l.taxes
    case TaxAccountNotAllowed(account) => SomeTaxAccount(items, l, account) && account !in l.allowed
    case NegativeDiscount => exists d :: SomeDiscount(items, d) && d.amount < 0
    case DiscountAccountNotAllowed(account) =>
      account !in l.allowed && exists d :: SomeDiscount(items, d) && d.taxAccount == account
    case _ => false
  }

  /** What the error of a payment says about it and the ledger. */
  ghost predicate PaymentClaim(e: Error, tx: Payment, l: Ledger) {
    match e
    case MissingId => tx.id == ""
    case MissingParty => tx.payer.id == "" || tx.payee.id == ""
    case NoItems => tx.items == []
    case NegativeNet => Gross(tx) < ItemsTax(tx.items, l.taxes) + ItemsDiscount(tx.items)
    case AccountNotFound(account) => account == tx.payer.id && account !in l.accounts
    case InsufficientBalance => BalanceOf(l.accounts, tx.payer.id) < Gross(tx)
    case MissingSignature => tx.signature == NoSignature
    case KeyNotFound(account) => account == tx.payer.id && account !in l.keys
    case InvalidSignature =>
      tx.payer.id in l.keys && !Verify(l.keys[tx.payer.id], PaymentBytes(tx), tx.signature)
    case _ => ItemsClaim(e, tx.items, l)
  }

  ghost predicate CreateClaim(e: Error, tx: AccountCreate, l: Ledger) {
    match e
    case MissingId => tx.id == ""
    case MissingAccountId => tx.account.id == ""
    case TypeNotAllowed(kind) => kind == tx.account.kind && kind != Person && kind != Merchant
    case NonZeroBalance => tx.account.balance != 0
    case AccountExists(account) => account == tx.account.id && account in l.accounts
    case MissingPublicKey => tx.publicKey == NoText
    case MalformedKey => tx.publicKey.Malformed?
    case MissingSignature => tx.signature == NoSignature
    case InvalidSignature => forall v :: v in l.validators ==> !Verify(l.validators[v], CreateBytes(tx), tx.signature)
    case _ => false
  }

  ghost predicate CloseClaim(e: Error, tx: AccountClose, l: Ledger) {
    match e
    case MissingId => tx.id == ""
    case MissingAccountId => tx.account == ""
    case AccountNotFound(account) => account == tx.account && account !in l.accounts
    case TypeNotAllowed(kind) =>
      tx.account in l.accounts && kind == l.accounts[tx.account].kind && kind != Person && kind != Merchant
    case MissingPublicKey => tx.publicKey == NoText
    case MalformedKey => tx.publicKey.Malformed?
    case KeyNotFound(account) => account == tx.account && account !in l.keys
    case KeyMismatch => tx.account in l.keys && ParseKey(tx.publicKey) != Ok(l.keys[tx.account])
    case NonZeroBalance => tx.account in l.accounts && l.accounts[tx.account].balance != 0
    case DestinationGiven =>
      tx.account in l.accounts && l.accounts[tx.account].kind == Merchant && tx.destination != ""
    case DestinationIsSelf => tx.account == if tx.destination == "" then "federal_treasury" else tx.destination
    case DestinationNotFound(account) =>
      account == (if tx.destination == "" then "federal_treasury" else tx.destination) && account !in l.accounts
    case MissingSignature => tx.signature == NoSignature
    case InvalidSignature =>
      && tx.account in l.accounts && tx.account in l.keys
      && if l.accounts[tx.account].kind == Merchant
         then !Verify(l.keys[tx.account], CloseBytes(tx), tx.signature)
         else forall v :: v in l.validators ==> !Verify(l.validators[v], CloseBytes(tx), tx.signature)
    case _ => false
  }

  lemma {:induction false} CodesRefusal(codes: seq<TaxCode>, l: Ledger)
    requires CheckCodes(codes, l).Rejected?
    ensures match CheckCodes(codes, l).error
            case UnknownTaxCode(code) => code in codes && code !in l.taxes
            case TaxAccountNotAllowed(account) =>
              && account !in l.allowed
              && exists code :: code in codes && code in l.taxes && l.taxes[code].taxAccount == account
            case _ => false
  {
    var init, last := codes[..|codes| - 1], codes[|codes| - 1];
    assert forall code :: code in init ==> code in codes;
    if CheckCodes(init, l).Rejected? {
      CodesRefusal(init, l);
    } else {
      assert last in codes;
    }
  }

  lemma {:induction false} DiscountsRefusal(discounts: seq<Discount>, l: Ledger)
    requires CheckDiscounts(discounts, l).Rejected?
    ensures match CheckDiscounts(discounts, l).error
            case NegativeDiscount => exists d :: d in discounts && d.amount < 0
            case DiscountAccountNotAllowed(account) =>
              account !in l.allowed && exists d :: d in discounts && d.taxAccount == account
            case _ => false
  {
    var init, last := discounts[..|discounts| - 1], discounts[|discounts| - 1];
    assert forall d :: d in init ==> d in discounts;
    if CheckDiscounts(init, l).Rejected? {
      DiscountsRefusal(init, l);
    } else {
      assert last in discounts;
    }
  }

  lemma ItemRefusal(item: LineItem, items: seq<LineItem>, l: Ledger)
    requires item in items && CheckItem(item, l).Rejected?
    ensures ItemsClaim(CheckItem(item, l).error, items, l)
  {
    hide CheckCodes, CheckDiscounts;
    if 0 < item.amount {
      assert forall code :: code in item.taxCodes ==> SomeCode(items, code);
      assert forall d :: d in item.discounts ==> SomeDiscount(items, d);
      if CheckCodes(item.taxCodes, l).Rejected? {
        CodesRefusal(item.taxCodes, l);
      } else {
        DiscountsRefusal(item.discounts, l);
      }
    }
  }

  lemma {:induction false} ItemsRefusal(some: seq<LineItem>, items: seq<LineItem>, l: Ledger)
    requires CheckItems(some, l).Rejected? && forall item :: item in some ==> item in items
    ensures ItemsClaim(CheckItems(some, l).error, items, l)
  {
    hide CheckItem, ItemsClaim;
    var init, last := some[..|some| - 1], some[|some| - 1];
    if CheckItems(init, l).Rejected? {
      ItemsRefusal(init, items, l);
    } else {
      ItemRefusal(last, items, l);
    }
  }

  /** The error with which a payment is refused is true of it and of the ledger. */
  lemma PaymentRefusal(tx: Payment, l: Ledger)
    requires CheckPayment(tx, l).Rejected?
    ensures PaymentClaim(CheckPayment(tx, l).error, tx, l)
  {
    hide CheckItems, Verify, PaymentBytes, SomeCode, SomeDiscount, SomeTaxAccount;
    PaymentAcceptedIff(tx, l);
    if CheckItems(tx.items, l).Rejected? {
      ItemsRefusal(tx.items, tx.items, l);
    }
  }

  /** So is that of a create. */
  lemma CreateRefusal(tx: AccountCreate, l: Ledger)
    requires CheckCreate(tx, l).Rejected?
    ensures CreateClaim(CheckCreate(tx, l).error, tx, l)
  {
  }

  /** So is that of a close. */
  lemma CloseRefusal(tx: AccountClose, l: Ledger)
    requires CheckClose(tx, l).Rejected?
    ensures CloseClaim(CheckClose(tx, l).error, tx, l)
  {
    hide CloseBytes, Verify;
  }

  lemma NotHeaderError(op: Op, l: Ledger)
    requires Apply(op, l).Err?
    ensures var e := Apply(op, l).error;
            !e.BadHeight? && !e.PreviousHashMismatch? && !e.HashMismatch? && !e.UnknownValidator?
            && !e.InvalidBlockSignature?
  {
    hide CheckPayment, CheckCreate, CheckClose;
    match op
    case PayOp(tx) => PaymentRefusal(tx, l);
    case CreateOp(tx) => CreateRefusal(tx, l);
    case CloseOp(tx) => CloseRefusal(tx, l);
  }

  ghost predicate RefusedAt(ops: seq<Op>, l: Ledger, e: Error, i: int) {
    0 <= i < |ops| && Run(ops[..i], l).Ok? && Apply(ops[i], Run(ops[..i], l).value) == Err(e)
  }

  /** A run is refused for its first operation that cannot be applied, with the error of that. */
  lemma {:induction false} RunRefusal(ops: seq<Op>, l: Ledger) returns (i: nat)
    requires Run(ops, l).Err?
    ensures RefusedAt(ops, l, Run(ops, l).error, i)
  {
    hide Apply;
    var init := ops[..|ops| - 1];
    if Run(init, l).Err? {
      i := RunRefusal(init, l);
      assert init[..i] == ops[..i];
    } else {
      i := |init|;
    }
  }

  /** The error with which a block is refused is true of its header, or else that of its first operation that cannot be
      applied. */
  lemma BlockRefusal(b: Block, prev: Block, l: Ledger) returns (i: nat)
    requires CheckBlock(b, prev, l).Err?
    ensures match CheckBlock(b, prev, l).error
            case BadHeight(expected, got) => expected == prev.height + 1 && got == b.height && got != expected
            case PreviousHashMismatch => b.previousHash != prev.hash
            case HashMismatch => b.hash != BlockHash(b)
            case UnknownValidator(validator) => validator == b.validator && validator !in l.validators
            case InvalidBlockSignature =>
              b.validator in l.validators && !Verify(l.validators[b.validator], BlockBytes(b), b.signature)
            case e => RefusedAt(BlockOps(b), l, e, i)
  {
    hide Run, BlockOps, BlockHash, BlockBytes, Apply;
    i := 0;
    if CheckHeader(b, prev, l.validators).Accepted? {
      i := RunRefusal(BlockOps(b), l);
      NotHeaderError(BlockOps(b)[i], Run(BlockOps(b)[..i], l).value);
    }
  }
}
