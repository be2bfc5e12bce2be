/** The amounts of the source are 64-bit integers that wrap around. This is the ledger arithmetic with every
    wrap written out, and when it is the unbounded arithmetic of the other modules. */
module MachineInts {
  import opened Domain
  import opened Crypto
  import opened LedgerRules
  import opened LedgerEffects

  const TWO_63 := 0x8000_0000_0000_0000
  const TWO_64 := 0x1_0000_0000_0000_0000

  predicate Int64(x: int) { -TWO_63 <= x < TWO_63 }

  /** The 64-bit value an integer wraps around to. */
  function Wrap(x: int): (w: int)
    ensures Int64(w)
    ensures w == x <==> Int64(x)
  {
    (x + TWO_63) % TWO_64 - TWO_63
  }

  /** A wrapped value is the one in the 64-bit range that is whole multiples of 2^64 away. */
  lemma WrapsApart(x: int) returns (turns: int)
    ensures Int64(Wrap(x)) && Wrap(x) == x - turns * TWO_64
  {
    turns := (x + TWO_63) / TWO_64;
  }

  lemma WrapTurns(x: int, turns: int)
    ensures Wrap(x + turns * TWO_64) == Wrap(x)
  {
    var a := WrapsApart(x);
    var b := WrapsApart(x + turns * TWO_64);
    assert Wrap(x + turns * TWO_64) == Wrap(x) + (turns - b + a) * TWO_64;
  }

  /** Wrapping sums early or late makes no difference. */
  lemma WrapSum(a: int, b: int)
    ensures Wrap(Wrap(a) + Wrap(b)) == Wrap(a + b)
  {
    var i := WrapsApart(a);
    var j := WrapsApart(b);
    assert Wrap(a) + Wrap(b) == a + b + (-i - j) * TWO_64;
    WrapTurns(a + b, -i - j);
  }

  lemma WrapDifference(a: int, b: int)
    ensures Wrap(Wrap(a) - Wrap(b)) == Wrap(a - b)
  {
    var i := WrapsApart(a);
    var j := WrapsApart(b);
    assert Wrap(a) - Wrap(b) == a - b + (j - i) * TWO_64;
    WrapTurns(a - b, j - i);
  }

  // ---------------------------------------------------------------------------------------------
  // The totals
  // ---------------------------------------------------------------------------------------------

  function GrossM(items: seq<LineItem>): int {
    if items == [] then 0 else Wrap(GrossM(items[..|items| - 1]) + items[|items| - 1].amount)
  }

  // The product wraps before it is divided.
  function TaxM(rate: int, amount: int): int { TruncDiv(Wrap(rate * amount), BPS) }

  function CodesTaxM(codes: seq<TaxCode>, amount: int, taxes: TaxTable): int {
    if codes == [] then 0 else
      var init, code := codes[..|codes| - 1], codes[|codes| - 1];
      if code in taxes then Wrap(CodesTaxM(init, amount, taxes) + TaxM(taxes[code].rateBps, amount))
      else CodesTaxM(init, amount, taxes)
  }

  function ItemsTaxM(items: seq<LineItem>, taxes: TaxTable): int {
    if items == [] then 0 else
      var last := items[|items| - 1];
      Wrap(ItemsTaxM(items[..|items| - 1], taxes) + CodesTaxM(last.taxCodes, last.amount, taxes))
  }

  function DiscountsM(discounts: seq<Discount>): int {
    if discounts == [] then 0 else Wrap(DiscountsM(discounts[..|discounts| - 1]) + discounts[|discounts| - 1].amount)
  }

  function ItemsDiscountM(items: seq<LineItem>): int {
    if items == [] then 0 else Wrap(ItemsDiscountM(items[..|items| - 1]) + DiscountsM(items[|items| - 1].discounts))
  }

  function NetM(tx: Payment, taxes: TaxTable): int {
    Wrap(Wrap(GrossM(tx.items) - ItemsTaxM(tx.items, taxes)) - ItemsDiscountM(tx.items))
  }

  /** The fields of a payment are 64-bit to begin with. */
  ghost predicate Int64Fields(items: seq<LineItem>) {
    forall i :: 0 <= i < |items| ==>
      Int64(items[i].amount) && forall k :: 0 <= k < |items[i].discounts| ==> Int64(items[i].discounts[k].amount)
  }

  ghost predicate CodeProductsFit(codes: seq<TaxCode>, amount: int, taxes: TaxTable) {
    forall k :: 0 <= k < |codes| && codes[k] in taxes ==> Int64(taxes[codes[k]].rateBps * amount)
  }

  /** No product of a rate and an amount overflows. */
  ghost predicate ProductsFit(items: seq<LineItem>, taxes: TaxTable) {
    forall i :: 0 <= i < |items| ==> CodeProductsFit(items[i].taxCodes, items[i].amount, taxes)
  }

  lemma TaxFits(rate: int, amount: int)
    requires Int64(rate * amount)
    ensures TaxM(rate, amount) == Tax(rate, amount) && Int64(Tax(rate, amount))
  {
    var product := rate * amount;
    assert Wrap(product) == product;
    assert Tax(rate, amount) == TruncDiv(product, BPS);
  }

  lemma {:induction false} GrossWraps(items: seq<LineItem>)
    requires Int64Fields(items)
    ensures GrossM(items) == Wrap(ItemsGross(items))
  {
    if items != [] {
      GrossWraps(items[..|items| - 1]);
      WrapSum(ItemsGross(items[..|items| - 1]), items[|items| - 1].amount);
    }
  }

  lemma {:induction false} CodesTaxWraps(codes: seq<TaxCode>, amount: int, taxes: TaxTable)
    requires CodeProductsFit(codes, amount, taxes)
    ensures CodesTaxM(codes, amount, taxes) == Wrap(CodesTax(codes, amount, taxes))
  {
    if codes != [] {
      var init, code := codes[..|codes| - 1], codes[|codes| - 1];
      CodesTaxWraps(init, amount, taxes);
      if code in taxes {
        TaxFits(taxes[code].rateBps, amount);
        WrapSum(CodesTax(init, amount, taxes), Tax(taxes[code].rateBps, amount));
      }
    }
  }

  lemma {:induction false} ItemsTaxWraps(items: seq<LineItem>, taxes: TaxTable)
    requires ProductsFit(items, taxes)
    ensures ItemsTaxM(items, taxes) == Wrap(ItemsTax(items, taxes))
  {
    if items != [] {
      var init, last := items[..|items| - 1], items[|items| - 1];
      ItemsTaxWraps(init, taxes);
      CodesTaxWraps(last.taxCodes, last.amount, taxes);
      WrapSum(ItemsTax(init, taxes), ItemTax(last, taxes));
    }
  }

  lemma {:induction false} DiscountsWrap(discounts: seq<Discount>)
    requires forall k :: 0 <= k < |discounts| ==> Int64(discounts[k].amount)
    ensures DiscountsM(discounts) == Wrap(DiscountsSum(discounts))
  {
    if discounts != [] {
      var init := discounts[..|discounts| - 1];
      DiscountsWrap(init);
      WrapSum(DiscountsSum(init), discounts[|discounts| - 1].amount);
    }
  }

  lemma {:induction false} ItemsDiscountWraps(items: seq<LineItem>)
    requires Int64Fields(items)
    ensures ItemsDiscountM(items) == Wrap(ItemsDiscount(items))
  {
    if items != [] {
      var init, last := items[..|items| - 1], items[|items| - 1];
      ItemsDiscountWraps(init);
      DiscountsWrap(last.discounts);
      WrapSum(ItemsDiscount(init), DiscountsSum(last.discounts));
    }
  }

  /** As long as no product overflows, each machine total is the exact total wrapped once at the end, whatever wrapped
      in between; so it is the exact total if and only if that fits. */
  lemma TotalsWrapOnce(tx: Payment, taxes: TaxTable)
    requires Int64Fields(tx.items) && ProductsFit(tx.items, taxes)
    ensures GrossM(tx.items) == Wrap(Gross(tx))
    ensures ItemsTaxM(tx.items, taxes) == Wrap(ItemsTax(tx.items, taxes))
    ensures ItemsDiscountM(tx.items) == Wrap(ItemsDiscount(tx.items))
    ensures NetM(tx, taxes) == Wrap(Net(tx, taxes))
  {
    hide Wrap;
    GrossWraps(tx.items);
    ItemsTaxWraps(tx.items, taxes);
    ItemsDiscountWraps(tx.items);
    WrapDifference(Gross(tx), ItemsTax(tx.items, taxes));
    WrapDifference(Gross(tx) - ItemsTax(tx.items, taxes), ItemsDiscount(tx.items));
  }

  // ---------------------------------------------------------------------------------------------
  // The ledger on machine integers
  // ---------------------------------------------------------------------------------------------

  function CheckFundsM(tx: Payment, l: Ledger): Outcome {
    var gross, net := GrossM(tx.items), NetM(tx, l.taxes);
    if gross <= 0 then Rejected(NonPositiveGross)
    else if Wrap(Wrap(ItemsTaxM(tx.items, l.taxes) + ItemsDiscountM(tx.items)) + net) != gross
    then Rejected(SplitMismatch)
    else if net < 0 then Rejected(NegativeNet)
    else if tx.payer.id !in l.accounts then Rejected(AccountNotFound(tx.payer.id))
    else if l.accounts[tx.payer.id].balance < gross then Rejected(InsufficientBalance)
    else if tx.signature == NoSignature then Rejected(MissingSignature)
    else if tx.payer.id !in l.keys then Rejected(KeyNotFound(tx.payer.id))
    else if !Verify(l.keys[tx.payer.id], PaymentBytes(tx), tx.signature) then Rejected(InvalidSignature)
    else Accepted
  }

  function CheckPaymentM(tx: Payment, l: Ledger): Outcome {
    if tx.id == "" then Rejected(MissingId)
    else if tx.payer.id == "" || tx.payee.id == "" then Rejected(MissingParty)
    else if tx.items == [] then Rejected(NoItems)
    else
      var items := CheckItems(tx.items, l);
      if items.Rejected? then items else CheckFundsM(tx, l)
  }

  function CreditM(accounts: Accounts, id: AccountID, amount: int): Accounts {
    var account := AccountAt(accounts, id);
    accounts[id := account.(balance := Wrap(account.balance + amount))]
  }

  function PostM(accounts: Accounts, postings: seq<Posting>): Accounts {
    if postings == [] then accounts else
      var last := postings[|postings| - 1];
      CreditM(PostM(accounts, postings[..|postings| - 1]), last.account, last.amount)
  }

  function TaxPostingsM(codes: seq<TaxCode>, amount: int, taxes: TaxTable): seq<Posting> {
    if codes == [] then [] else
      var code := codes[|codes| - 1];
      TaxPostingsM(codes[..|codes| - 1], amount, taxes)
      + if code in taxes then [Posting(taxes[code].taxAccount, TaxM(taxes[code].rateBps, amount))] else []
  }

  function ItemsPostingsM(items: seq<LineItem>, taxes: TaxTable): seq<Posting> {
    if items == [] then [] else
      var last := items[|items| - 1];
      ItemsPostingsM(items[..|items| - 1], taxes)
      + (TaxPostingsM(last.taxCodes, last.amount, taxes) + DiscountPostings(last.discounts))
  }

  function PostingsM(tx: Payment, taxes: TaxTable): seq<Posting> {
    [Posting(tx.payer.id, -GrossM(tx.items)), Posting(tx.payee.id, NetM(tx, taxes))] + ItemsPostingsM(tx.items, taxes)
  }

  function ClosedM(tx: AccountClose, l: Ledger): Ledger {
    var account := AccountAt(l.accounts, tx.account);
    var swept := if account.kind == Person && 0 < account.balance
                 then CreditM(l.accounts, CloseDestination(tx), account.balance) else l.accounts;
    l.(accounts := swept - {tx.account}, keys := l.keys - {tx.account})
  }

  function ApplyM(op: Op, l: Ledger): Result<Ledger> {
    match op
    case CreateOp(tx) => Apply(op, l)
    case PayOp(tx) =>
      var outcome := CheckPaymentM(tx, l);
      if outcome.Rejected? then Err(outcome.error) else Ok(l.(accounts := PostM(l.accounts, PostingsM(tx, l.taxes))))
    case CloseOp(tx) =>
      var outcome := CheckClose(tx, l);
      if outcome.Rejected? then Err(outcome.error) else Ok(ClosedM(tx, l))
  }

  function RunM(ops: seq<Op>, l: Ledger): Result<Ledger> {
    if ops == [] then Ok(l) else
      var before := RunM(ops[..|ops| - 1], l);
      if before.Err? then before else ApplyM(ops[|ops| - 1], before.value)
  }

  /** The payment's own arithmetic stays in range: products, and the four exact totals. Nothing is said about what the
      sums pass through on the way, or about balances. */
  ghost predicate Fits(tx: Payment, taxes: TaxTable) {
    && Int64Fields(tx.items) && ProductsFit(tx.items, taxes)
    && Int64(Gross(tx)) && Int64(ItemsTax(tx.items, taxes)) && Int64(ItemsDiscount(tx.items)) && Int64(Net(tx, taxes))
  }

  lemma TotalsAreExact(tx: Payment, taxes: TaxTable)
    requires Fits(tx, taxes)
    ensures GrossM(tx.items) == Gross(tx) && NetM(tx, taxes) == Net(tx, taxes)
    ensures Wrap(Wrap(ItemsTaxM(tx.items, taxes) + ItemsDiscountM(tx.items)) + NetM(tx, taxes)) == Gross(tx)
  {
    TotalsWrapOnce(tx, taxes);
    WrapSum(ItemsTax(tx.items, taxes) + ItemsDiscount(tx.items), Net(tx, taxes));
  }

  lemma FundsAreExact(tx: Payment, l: Ledger)
    requires Fits(tx, l.taxes)
    ensures CheckFundsM(tx, l) == CheckFunds(tx, l)
  {
    hide Wrap;
    TotalsAreExact(tx, l.taxes);
  }

  lemma CheckIsExact(tx: Payment, l: Ledger)
    requires Fits(tx, l.taxes)
    ensures CheckPaymentM(tx, l) == CheckPayment(tx, l)
  {
    FundsAreExact(tx, l);
  }

  lemma {:induction false} TaxPostingsAreExact(codes: seq<TaxCode>, amount: int, taxes: TaxTable)
    requires CodeProductsFit(codes, amount, taxes)
    ensures TaxPostingsM(codes, amount, taxes) == TaxPostings(codes, amount, taxes)
  {
    if codes != [] {
      TaxPostingsAreExact(codes[..|codes| - 1], amount, taxes);
      if codes[|codes| - 1] in taxes {
        TaxFits(taxes[codes[|codes| - 1]].rateBps, amount);
      }
    }
  }

  lemma {:induction false} ItemsPostingsAreExact(items: seq<LineItem>, taxes: TaxTable)
    requires ProductsFit(items, taxes)
    ensures ItemsPostingsM(items, taxes) == ItemsPostings(items, taxes)
  {
    if items != [] {
      ItemsPostingsAreExact(items[..|items| - 1], taxes);
      TaxPostingsAreExact(items[|items| - 1].taxCodes, items[|items| - 1].amount, taxes);
    }
  }

  lemma PostingsAreExact(tx: Payment, taxes: TaxTable)
    requires Fits(tx, taxes)
    ensures PostingsM(tx, taxes) == Postings(tx, taxes)
  {
    TotalsAreExact(tx, taxes);
    ItemsPostingsAreExact(tx.items, taxes);
  }

  lemma {:induction false} PostIsExact(tx: Payment, l: Ledger, n: nat)
    requires Sound(l) && Supply(l.accounts) < TWO_63
    requires Apply(PayOp(tx), l).Ok? && n <= |Postings(tx, l.taxes)|
    ensures PostM(l.accounts, Postings(tx, l.taxes)[..n]) == Post(l.accounts, Postings(tx, l.taxes)[..n])
  {
    hide CheckPayment, CheckCreate, CheckClose, Postings;
    if n > 0 {
      var postings := Postings(tx, l.taxes);
      assert postings[..n][..n - 1] == postings[..n - 1];
      PostIsExact(tx, l, n - 1);
      PaymentStepsBounded(tx, l, n, postings[n - 1].account);
    }
  }

  lemma CloseIsExact(tx: AccountClose, l: Ledger)
    requires Sound(l) && Supply(l.accounts) < TWO_63 && Apply(CloseOp(tx), l).Ok?
    ensures ClosedM(tx, l) == Closed(tx, l)
  {
    var account, to := l.accounts[tx.account], CloseDestination(tx);
    if account.kind == Person && 0 < account.balance {
      SumOverPick(l.accounts.Keys, l.accounts, tx.account);
      SumOverPick(l.accounts.Keys - {tx.account}, l.accounts, to);
      SumOverBounds(l.accounts.Keys - {tx.account} - {to}, l.accounts);
    }
  }

  lemma ApplyIsExact(op: Op, l: Ledger)
    requires Sound(l) && Supply(l.accounts) < TWO_63
    requires op.PayOp? ==> Fits(op.payment, l.taxes)
    ensures ApplyM(op, l) == Apply(op, l)
  {
    match op
    case CreateOp(_) =>
    case PayOp(tx) =>
      CheckIsExact(tx, l);
      PostingsAreExact(tx, l.taxes);
      if Apply(op, l).Ok? {
        var postings := Postings(tx, l.taxes);
        PostIsExact(tx, l, |postings|);
        assert postings[..|postings|] == postings;
      }
    case CloseOp(tx) =>
      if Apply(op, l).Ok? {
        CloseIsExact(tx, l);
      }
  }

  ghost predicate AllFit(ops: seq<Op>, taxes: TaxTable) {
    forall i :: 0 <= i < |ops| && ops[i].PayOp? ==> Fits(ops[i].payment, taxes)
  }

  /** From non-negative balances and rates whose money supply fits in 64 bits, any sequence of operations whose
      payments' own totals fit runs on machine integers exactly as on unbounded ones, errors included: no balance
      update ever overflows. */
  lemma {:induction false} MachineRunIsExact(ops: seq<Op>, l: Ledger)
    requires Sound(l) && Supply(l.accounts) < TWO_63 && AllFit(ops, l.taxes)
    ensures RunM(ops, l) == Run(ops, l)
  {
    if ops != [] {
      var init, last := ops[..|ops| - 1], ops[|ops| - 1];
      MachineRunIsExact(init, l);
      if Run(init, l).Ok? {
        RunConserves(init, l);
        RunFrame(init, l);
        ApplyIsExact(last, Run(init, l).value);
      }
    }
  }
}
