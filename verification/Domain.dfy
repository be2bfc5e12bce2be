/** The entities of package `domain`, with the byte strings of package `crypto` kept symbolic:
    a digest is the content it commits to and a signature is the key and the message it was made with. */
module Domain {

  datatype Option<+T> = None | Some(value: T)

  datatype Result<+T> = Ok(value: T) | Err(error: Error)

  datatype Outcome = Accepted | Rejected(error: Error)

  // One constructor per error the source can return, in the order the checks make them.
  datatype Error =
    // payments
    | MissingId
    | MissingParty
    | NoItems
    | NonPositiveAmount
    | UnknownTaxCode(code: TaxCode)
    | TaxAccountNotAllowed(account: AccountID)
    | NegativeDiscount
    | DiscountAccountNotAllowed(account: AccountID)
    | NonPositiveGross
    | SplitMismatch
    | NegativeNet
    | AccountNotFound(account: AccountID)
    | InsufficientBalance
    | MissingSignature
    | KeyNotFound(account: AccountID)
    | InvalidSignature
    // account creates and closes
    | MissingAccountId
    | TypeNotAllowed(kind: AccountType)
    | NonZeroBalance
    | AccountExists(account: AccountID)
    | MissingPublicKey
    | MalformedKey
    | KeyMismatch
    | DestinationGiven
    | DestinationIsSelf
    | DestinationNotFound(account: AccountID)
    // blocks
    | BadHeight(expected: int, got: int)
    | PreviousHashMismatch
    | HashMismatch
    | UnknownValidator(validator: string)
    | InvalidBlockSignature
    // pools, store, start-up, production, sync
    | AlreadyPending(id: TxID)
    | StoreFailure
    | NoTaxSplits
    | NegativeRate(code: TaxCode)
    | MissingTaxAccount(code: TaxCode)
    | EmptyChain
    | ValidatorNotInGenesis(validator: string)
    | ProducerKeyMismatch
    | NotMySlot(height: int)
    | NeedSync(got: int, local: int)
    | ChainIdMismatch
    | MalformedMessage

  type AccountID = string
  type TaxCode = string
  type TxID = string

  datatype AccountType = Person | Merchant | Treasury | Other(name: string)

  datatype Account = Account(id: AccountID, kind: AccountType, balance: int)

  // What a Go map read yields for a missing key.
  const ZERO_ACCOUNT := Account("", Other(""), 0)

  datatype TaxSplit = TaxSplit(rateBps: int, taxAccount: AccountID)

  datatype Discount = Discount(code: string, amount: int, taxAccount: AccountID)

  datatype LineItem = LineItem(description: string, amount: int, taxCodes: seq<TaxCode>, discounts: seq<Discount>)

  datatype Timestamp = Timestamp(second: int, nano: nat)

  datatype PrivateKey = PrivateKey(id: nat)

  datatype PublicKey = PublicKey(id: nat)

  // A key in a text field: absent, undecodable, or some base64 spelling of a key.
  datatype KeyText<+K> = NoText | Malformed(text: string) | Encoded(key: K, spelling: nat)

  datatype UnsignedPayment = UnsignedPayment(id: TxID, second: int, payer: Account, payee: Account,
                                             items: seq<LineItem>)

  datatype UnsignedCreate = UnsignedCreate(id: TxID, second: int, account: Account, publicKey: KeyText<PublicKey>)

  datatype UnsignedClose = UnsignedClose(id: TxID, second: int, account: AccountID, publicKey: KeyText<PublicKey>,
                                         destination: AccountID)

  datatype UnsignedBlock = UnsignedBlock(height: int, second: int, payments: seq<UnsignedPayment>,
                                         creates: seq<UnsignedCreate>, closes: seq<UnsignedClose>,
                                         previousHash: Digest, validator: string)

  // The canonical byte strings that get signed; their JSON field names keep the four kinds apart.
  datatype Message =
    | PaymentMessage(payment: UnsignedPayment)
    | CreateMessage(create: UnsignedCreate)
    | CloseMessage(close: UnsignedClose)
    | BlockMessage(block: UnsignedBlock)

  datatype Digest = NoDigest | Sha256(message: Message) | OtherBytes(tag: nat)

  datatype Signature = NoSignature | Signed(key: PrivateKey, message: Message) | Garbage(tag: nat)

  datatype Payment = Payment(id: TxID, timestamp: Timestamp, payer: Account, payee: Account, items: seq<LineItem>,
                             signature: Signature)

  datatype AccountCreate = AccountCreate(id: TxID, timestamp: Timestamp, account: Account,
                                         publicKey: KeyText<PublicKey>, signature: Signature)

  datatype AccountClose = AccountClose(id: TxID, timestamp: Timestamp, account: AccountID,
                                       publicKey: KeyText<PublicKey>, destination: AccountID, signature: Signature)

  datatype Block = Block(height: int, timestamp: Timestamp, payments: seq<Payment>, creates: seq<AccountCreate>,
                         closes: seq<AccountClose>, previousHash: Digest, hash: Digest, validator: string,
                         signature: Signature)

  // ---------------------------------------------------------------------------------------------
  // Totals of a payment
  // ---------------------------------------------------------------------------------------------

  type TaxTable = map<TaxCode, TaxSplit>

  const BPS := 10000

  /** Go's integer division truncates toward zero; Dafny's rounds toward minus infinity for a positive divisor. */
  function TruncDiv(a: int, b: int): (q: int)
    requires 0 < b
    ensures 0 <= a ==> b * q <= a < b * q + b
    ensures a < 0 ==> b * q - b < a <= b * q
  {
    if 0 <= a then a / b else -(-a / b)
  }

  function Tax(rate: int, amount: int): int {
    TruncDiv(rate * amount, BPS)
  }

  function CodesTax(codes: seq<TaxCode>, amount: int, taxes: TaxTable): int {
    if codes == [] then 0 else
      var code := codes[|codes| - 1];
      CodesTax(codes[..|codes| - 1], amount, taxes)
      + if code in taxes then Tax(taxes[code].rateBps, amount) else 0
  }

  function ItemTax(item: LineItem, taxes: TaxTable): int {
    CodesTax(item.taxCodes, item.amount, taxes)
  }

  function DiscountsSum(discounts: seq<Discount>): int {
    if discounts == [] then 0 else DiscountsSum(discounts[..|discounts| - 1]) + discounts[|discounts| - 1].amount
  }

  function ItemsGross(items: seq<LineItem>): int {
    if items == [] then 0 else ItemsGross(items[..|items| - 1]) + items[|items| - 1].amount
  }

  function ItemsTax(items: seq<LineItem>, taxes: TaxTable): int {
    if items == [] then 0 else ItemsTax(items[..|items| - 1], taxes) + ItemTax(items[|items| - 1], taxes)
  }

  function ItemsDiscount(items: seq<LineItem>): int {
    if items == [] then 0 else ItemsDiscount(items[..|items| - 1]) + DiscountsSum(items[|items| - 1].discounts)
  }

  function Gross(tx: Payment): int { ItemsGross(tx.items) }

  function Net(tx: Payment, taxes: TaxTable): int {
    Gross(tx) - ItemsTax(tx.items, taxes) - ItemsDiscount(tx.items)
  }

  method GrossAmount(tx: Payment) returns (total: int)
    ensures total == Gross(tx)
  {
    total := 0;
    for i := 0 to |tx.items|
      invariant total == ItemsGross(tx.items[..i])
    {
      assert tx.items[..i + 1][..i] == tx.items[..i];
      total := total + tx.items[i].amount;
    }
    assert tx.items[..|tx.items|] == tx.items;
  }

  method LineItemTaxTotal(item: LineItem, taxes: TaxTable) returns (total: int)
    ensures total == ItemTax(item, taxes)
  {
    total := 0;
    var codes := item.taxCodes;
    for i := 0 to |codes|
      invariant total == CodesTax(codes[..i], item.amount, taxes)
    {
      assert codes[..i + 1][..i] == codes[..i];
      if codes[i] !in taxes {
        continue;
      }
      var product := taxes[codes[i]].rateBps * item.amount;
      total := total + TruncDiv(product, BPS);
    }
    assert codes[..|codes|] == codes;
  }

  method LineItemDiscountTotal(item: LineItem) returns (total: int)
    ensures total == DiscountsSum(item.discounts)
  {
    total := 0;
    var discounts := item.discounts;
    for i := 0 to |discounts|
      invariant total == DiscountsSum(discounts[..i])
    {
      assert discounts[..i + 1][..i] == discounts[..i];
      total := total + discounts[i].amount;
    }
    assert discounts[..|discounts|] == discounts;
  }

  method TaxTotal(tx: Payment, taxes: TaxTable) returns (total: int)
    ensures total == ItemsTax(tx.items, taxes)
  {
    total := 0;
    for i := 0 to |tx.items|
      invariant total == ItemsTax(tx.items[..i], taxes)
    {
      assert tx.items[..i + 1][..i] == tx.items[..i];
      var t := LineItemTaxTotal(tx.items[i], taxes);
      total := total + t;
    }
    assert tx.items[..|tx.items|] == tx.items;
  }

  method DiscountTotal(tx: Payment) returns (total: int)
    ensures total == ItemsDiscount(tx.items)
  {
    total := 0;
    for i := 0 to |tx.items|
      invariant total == ItemsDiscount(tx.items[..i])
    {
      assert tx.items[..i + 1][..i] == tx.items[..i];
      var d := LineItemDiscountTotal(tx.items[i]);
      total := total + d;
    }
    assert tx.items[..|tx.items|] == tx.items;
  }

  method NetToPayee(tx: Payment, taxes: TaxTable) returns (net: int)
    ensures net == Net(tx, taxes)
  {
    var gross := GrossAmount(tx);
    var tax := TaxTotal(tx, taxes);
    var discount := DiscountTotal(tx);
    net := gross - tax - discount;
  }
}
