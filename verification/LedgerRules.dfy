/** The ledger as a value: the rules of `internal/ledger/state.go` as functions from state to state.
    Module LedgerState has the object those functions specify. */
module LedgerRules {
  import opened Domain
  import opened Crypto

  type Accounts = map<AccountID, Account>
  type KeyTable = map<string, PublicKey>

  datatype Ledger = Ledger(accounts: Accounts, taxes: TaxTable, allowed: set<AccountID>,
                           validators: KeyTable, keys: KeyTable)

  function AccountAt(accounts: Accounts, id: AccountID): Account {
    if id in accounts then accounts[id] else ZERO_ACCOUNT
  }

  function BalanceOf(accounts: Accounts, id: AccountID): int { AccountAt(accounts, id).balance }

  // ---------------------------------------------------------------------------------------------
  // Payments
  // ---------------------------------------------------------------------------------------------

  function CheckCodes(codes: seq<TaxCode>, l: Ledger): Outcome {
    if codes == [] then Accepted else
      var before := CheckCodes(codes[..|codes| - 1], l);
      var code := codes[|codes| - 1];
      if before.Rejected? then before
      else if code !in l.taxes then Rejected(UnknownTaxCode(code))
      else if l.taxes[code].taxAccount !in l.allowed then Rejected(TaxAccountNotAllowed(l.taxes[code].taxAccount))
      else Accepted
  }

  function CheckDiscounts(discounts: seq<Discount>, l: Ledger): Outcome {
    if discounts == [] then Accepted else
      var before := CheckDiscounts(discounts[..|discounts| - 1], l);
      var discount := discounts[|discounts| - 1];
      if before.Rejected? then before
      else if discount.amount < 0 then Rejected(NegativeDiscount)
      else if discount.taxAccount !in l.allowed then Rejected(DiscountAccountNotAllowed(discount.taxAccount))
      else Accepted
  }

  function CheckItem(item: LineItem, l: Ledger): Outcome {
    if item.amount <= 0 then Rejected(NonPositiveAmount)
    else
      var codes := CheckCodes(item.taxCodes, l);
      if codes.Rejected? then codes else CheckDiscounts(item.discounts, l)
  }

  function CheckItems(items: seq<LineItem>, l: Ledger): Outcome {
    if items == [] then Accepted else
      var before := CheckItems(items[..|items| - 1], l);
      if before.Rejected? then before else CheckItem(items[|items| - 1], l)
  }

  function CheckFunds(tx: Payment, l: Ledger): Outcome {
    var gross := Gross(tx);
    var net := Net(tx, l.taxes);
    if gross <= 0 then Rejected(NonPositiveGross)
    else if ItemsTax(tx.items, l.taxes) + ItemsDiscount(tx.items) + net != gross then Rejected(SplitMismatch)
    else if net < 0 then Rejected(NegativeNet)
    else if tx.payer.id !in l.accounts then Rejected(AccountNotFound(tx.payer.id))
    else if l.accounts[tx.payer.id].balance < gross then Rejected(InsufficientBalance)
    else if tx.signature == NoSignature then Rejected(MissingSignature)
    else if tx.payer.id !in l.keys then Rejected(KeyNotFound(tx.payer.id))
    else if !Verify(l.keys[tx.payer.id], PaymentBytes(tx), tx.signature) then Rejected(InvalidSignature)
    else Accepted
  }

  function CheckPayment(tx: Payment, l: Ledger): Outcome {
    if tx.id == "" then Rejected(MissingId)
    else if tx.payer.id == "" || tx.payee.id == "" then Rejected(MissingParty)
    else if tx.items == [] then Rejected(NoItems)
    else
      var items := CheckItems(tx.items, l);
      if items.Rejected? then items else CheckFunds(tx, l)
  }

  /** One read-modify-write of a balance; a missing account springs into existence as the zero account. */
  datatype Posting = Posting(account: AccountID, amount: int)

  function Credit(accounts: Accounts, id: AccountID, amount: int): Accounts {
    var account := AccountAt(accounts, id);
    accounts[id := account.(balance := account.balance + amount)]
  }

  function Post(accounts: Accounts, postings: seq<Posting>): Accounts {
    if postings == [] then accounts else
      var last := postings[|postings| - 1];
      Credit(Post(accounts, postings[..|postings| - 1]), last.account, last.amount)
  }

  function TaxPostings(codes: seq<TaxCode>, amount: int, taxes: TaxTable): seq<Posting> {
    if codes == [] then [] else
      var code := codes[|codes| - 1];
      TaxPostings(codes[..|codes| - 1], amount, taxes)
      + if code in taxes then [Posting(taxes[code].taxAccount, Tax(taxes[code].rateBps, amount))] else []
  }

  function DiscountPostings(discounts: seq<Discount>): seq<Posting> {
    if discounts == [] then [] else
      var discount := discounts[|discounts| - 1];
      DiscountPostings(discounts[..|discounts| - 1])
      + if discount.amount == 0 then [] else [Posting(discount.taxAccount, discount.amount)]
  }

  function ItemPostings(item: LineItem, taxes: TaxTable): seq<Posting> {
    TaxPostings(item.taxCodes, item.amount, taxes) + DiscountPostings(item.discounts)
  }

  function ItemsPostings(items: seq<LineItem>, taxes: TaxTable): seq<Posting> {
    if items == [] then [] else
      ItemsPostings(items[..|items| - 1], taxes) + ItemPostings(items[|items| - 1], taxes)
  }

  function Postings(tx: Payment, taxes: TaxTable): seq<Posting> {
    [Posting(tx.payer.id, -Gross(tx)), Posting(tx.payee.id, Net(tx, taxes))] + ItemsPostings(tx.items, taxes)
  }

  function Paid(tx: Payment, l: Ledger): Ledger {
    l.(accounts := Post(l.accounts, Postings(tx, l.taxes)))
  }

  // ---------------------------------------------------------------------------------------------
  // Account creates and closes
  // ---------------------------------------------------------------------------------------------

  predicate SignedByAValidator(l: Ledger, message: Message, signature: Signature) {
    exists id :: id in l.validators && Verify(l.validators[id], message, signature)
  }

  function CheckCreate(tx: AccountCreate, l: Ledger): Outcome {
    if tx.id == "" then Rejected(MissingId)
    else if tx.account.id == "" then Rejected(MissingAccountId)
    else if tx.account.kind != Person && tx.account.kind != Merchant then Rejected(TypeNotAllowed(tx.account.kind))
    else if tx.account.balance != 0 then Rejected(NonZeroBalance)
    else if tx.account.id in l.accounts then Rejected(AccountExists(tx.account.id))
    else if tx.publicKey == NoText then Rejected(MissingPublicKey)
    else if ParseKey(tx.publicKey).Err? then Rejected(MalformedKey)
    else if tx.signature == NoSignature then Rejected(MissingSignature)
    else if !SignedByAValidator(l, CreateBytes(tx), tx.signature) then Rejected(InvalidSignature)
    else Accepted
  }

  function Created(tx: AccountCreate, l: Ledger): Ledger
    requires ParseKey(tx.publicKey).Ok?
  {
    l.(accounts := l.accounts[tx.account.id := Account(tx.account.id, tx.account.kind, 0)],
       keys := l.keys[tx.account.id := ParseKey(tx.publicKey).value])
  }

  const DEFAULT_DESTINATION: AccountID := "federal_treasury"

  function CloseDestination(tx: AccountClose): AccountID {
    if tx.destination != "" then tx.destination else DEFAULT_DESTINATION
  }

  function CheckClose(tx: AccountClose, l: Ledger): Outcome {
    if tx.id == "" then Rejected(MissingId)
    else if tx.account == "" then Rejected(MissingAccountId)
    else if tx.account !in l.accounts then Rejected(AccountNotFound(tx.account))
    else
      var account := l.accounts[tx.account];
      if account.kind != Person && account.kind != Merchant then Rejected(TypeNotAllowed(account.kind))
      else if tx.publicKey == NoText then Rejected(MissingPublicKey)
      else if ParseKey(tx.publicKey).Err? then Rejected(MalformedKey)
      else if tx.account !in l.keys then Rejected(KeyNotFound(tx.account))
      else if ParseKey(tx.publicKey).value != l.keys[tx.account] then Rejected(KeyMismatch)
      else if account.kind == Merchant && account.balance != 0 then Rejected(NonZeroBalance)
      else if account.kind == Merchant && tx.destination != "" then Rejected(DestinationGiven)
      else if account.kind == Person && CloseDestination(tx) == tx.account then Rejected(DestinationIsSelf)
      else if account.kind == Person && CloseDestination(tx) !in l.accounts
      then Rejected(DestinationNotFound(CloseDestination(tx)))
      else if tx.signature == NoSignature then Rejected(MissingSignature)
      else if account.kind == Person && !SignedByAValidator(l, CloseBytes(tx), tx.signature)
      then Rejected(InvalidSignature)
      else if account.kind == Merchant && !Verify(l.keys[tx.account], CloseBytes(tx), tx.signature)
      then Rejected(InvalidSignature)
      else Accepted
  }

  function Closed(tx: AccountClose, l: Ledger): Ledger {
    var account := AccountAt(l.accounts, tx.account);
    var swept := if account.kind == Person && 0 < account.balance
                 then Credit(l.accounts, CloseDestination(tx), account.balance) else l.accounts;
    l.(accounts := swept - {tx.account}, keys := l.keys - {tx.account})
  }

  // ---------------------------------------------------------------------------------------------
  // Operations and blocks
  // ---------------------------------------------------------------------------------------------

  datatype Op = CreateOp(create: AccountCreate) | PayOp(payment: Payment) | CloseOp(close: AccountClose)

  function Check(op: Op, l: Ledger): Outcome {
    match op
    case CreateOp(tx) => CheckCreate(tx, l)
    case PayOp(tx) => CheckPayment(tx, l)
    case CloseOp(tx) => CheckClose(tx, l)
  }

  function Apply(op: Op, l: Ledger): Result<Ledger> {
    var outcome := Check(op, l);
    if outcome.Rejected? then Err(outcome.error) else
      match op
      case CreateOp(tx) => Ok(Created(tx, l))
      case PayOp(tx) => Ok(Paid(tx, l))
      case CloseOp(tx) => Ok(Closed(tx, l))
  }

  /** Apply in order, stopping at the first error. */
  function Run(ops: seq<Op>, l: Ledger): Result<Ledger> {
    if ops == [] then Ok(l) else
      var before := Run(ops[..|ops| - 1], l);
      if before.Err? then before else Apply(ops[|ops| - 1], before.value)
  }

  function CreateOps(txs: seq<AccountCreate>): (ops: seq<Op>)
    ensures |ops| == |txs| && forall i :: 0 <= i < |txs| ==> ops[i] == CreateOp(txs[i])
  {
    seq(|txs|, i requires 0 <= i < |txs| => CreateOp(txs[i]))
  }

  function PayOps(txs: seq<Payment>): (ops: seq<Op>)
    ensures |ops| == |txs| && forall i :: 0 <= i < |txs| ==> ops[i] == PayOp(txs[i])
  {
    seq(|txs|, i requires 0 <= i < |txs| => PayOp(txs[i]))
  }

  function CloseOps(txs: seq<AccountClose>): (ops: seq<Op>)
    ensures |ops| == |txs| && forall i :: 0 <= i < |txs| ==> ops[i] == CloseOp(txs[i])
  {
    seq(|txs|, i requires 0 <= i < |txs| => CloseOp(txs[i]))
  }

  /** A block's operations in the order ValidateBlock applies them. */
  function BlockOps(b: Block): seq<Op> {
    CreateOps(b.creates) + PayOps(b.payments) + CloseOps(b.closes)
  }

  function CheckHeader(b: Block, prev: Block, validators: KeyTable): Outcome {
    if b.height != prev.height + 1 then Rejected(BadHeight(prev.height + 1, b.height))
    else if b.previousHash != prev.hash then Rejected(PreviousHashMismatch)
    else if b.hash != BlockHash(b) then Rejected(HashMismatch)
    else if b.validator !in validators then Rejected(UnknownValidator(b.validator))
    else if b.signature == NoSignature || !Verify(validators[b.validator], BlockBytes(b), b.signature)
    then Rejected(InvalidBlockSignature)
    else Accepted
  }

  function CheckBlock(b: Block, prev: Block, l: Ledger): Result<Ledger> {
    var header := CheckHeader(b, prev, l.validators);
    if header.Rejected? then Err(header.error) else Run(BlockOps(b), l)
  }

  lemma {:induction false} RunConcat(a: seq<Op>, b: seq<Op>, l: Ledger)
    ensures Run(a + b, l) == if Run(a, l).Err? then Run(a, l) else Run(b, Run(a, l).value)
  {
    if b == [] {
      assert a + b == a;
    } else {
      var init := b[..|b| - 1];
      RunConcat(a, init, l);
      assert (a + b)[..|a + b| - 1] == a + init;
    }
  }

  lemma RunOne(op: Op, l: Ledger)
    ensures Run([op], l) == Apply(op, l)
  {
    assert [op][..0] == [];
    assert Run([op][..0], l) == Ok(l);
  }

  lemma RunSnoc(ops: seq<Op>, op: Op, l: Ledger)
    ensures Run(ops + [op], l) == if Run(ops, l).Err? then Run(ops, l) else Apply(op, Run(ops, l).value)
  {
    assert (ops + [op])[..|ops|] == ops;
  }

  lemma RunNext(ops: seq<Op>, i: nat, l: Ledger)
    requires i < |ops| && Run(ops[..i], l).Ok?
    ensures Run(ops[..i + 1], l) == Apply(ops[i], Run(ops[..i], l).value)
  {
    assert ops[..i + 1][..i] == ops[..i];
  }

  lemma {:induction false} PostConcat(accounts: Accounts, a: seq<Posting>, b: seq<Posting>)
    ensures Post(accounts, a + b) == Post(Post(accounts, a), b)
  {
    if b == [] {
      assert a + b == a;
    } else {
      PostConcat(accounts, a, b[..|b| - 1]);
      assert (a + b)[..|a + b| - 1] == a + b[..|b| - 1];
    }
  }

  lemma PostOne(accounts: Accounts, id: AccountID, amount: int)
    ensures Post(accounts, [Posting(id, amount)]) == Credit(accounts, id, amount)
  {
    assert [Posting(id, amount)][..0] == [];
    assert Post(accounts, [Posting(id, amount)][..0]) == accounts;
  }

  lemma ErrorSticks(ops: seq<Op>, n: nat, l: Ledger)
    requires n <= |ops| && Run(ops[..n], l).Err?
    ensures Run(ops, l) == Run(ops[..n], l)
  {
    RunConcat(ops[..n], ops[n..], l);
    assert ops[..n] + ops[n..] == ops;
  }
}
