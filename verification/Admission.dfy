/** Admission to the mempool against the confirmed ledger. */
module Admission {
  import opened Domain
  import opened LedgerRules
  import opened TaxRounding
  import opened LedgerEffects
  import opened Mempool

  /** The fast check: one subtraction stands in for everything the payer has pending. */
  function CheckAdmit(tx: Payment, l: Ledger, reserved: int): Outcome {
    CheckPayment(tx, if tx.payer.id in l.accounts then l.(accounts := Credit(l.accounts, tx.payer.id, -reserved))
                 else l)
  }

  /** The slow check: re-apply the pending payments, skipping the ones that fail. */
  function Replayed(pending: seq<Payment>, l: Ledger): Ledger {
    if pending == [] then l else
      var before := Replayed(pending[..|pending| - 1], l);
      var next := Apply(PayOp(pending[|pending| - 1]), before);
      if next.Ok? then next.value else before
  }

  function CheckPendingWith(tx: Payment, pending: seq<Payment>, l: Ledger): Outcome {
    CheckPayment(tx, Replayed(pending, l))
  }

  // ---------------------------------------------------------------------------------------------
  // What survives other operations
  // ---------------------------------------------------------------------------------------------

  lemma {:induction false} RoutedCodesNonNegative(codes: seq<TaxCode>, amount: int, taxes: TaxTable, a: AccountID)
    requires NonNegativeRates(taxes) && 0 <= amount
    ensures 0 <= RoutedCodes(codes, amount, taxes, a)
  {
    if codes != [] {
      var code := codes[|codes| - 1];
      RoutedCodesNonNegative(codes[..|codes| - 1], amount, taxes, a);
      if code in taxes {
        DivisionLoss(taxes[code].rateBps, amount);
        assert 0 <= taxes[code].rateBps * amount;
      }
    }
  }

  lemma {:induction false} RoutedDiscountsNonNegative(discounts: seq<Discount>, a: AccountID)
    requires forall d :: d in discounts ==> 0 <= d.amount
    ensures 0 <= RoutedDiscounts(discounts, a)
  {
    if discounts != [] {
      assert discounts[|discounts| - 1] in discounts;
      RoutedDiscountsNonNegative(discounts[..|discounts| - 1], a);
    }
  }

  lemma {:induction false} RoutedNonNegative(items: seq<LineItem>, taxes: TaxTable, a: AccountID)
    requires NonNegativeRates(taxes)
    requires forall i :: 0 <= i < |items| ==> NonNegativeItem(items[i])
    ensures 0 <= Routed(items, taxes, a)
  {
    if items != [] {
      var item := items[|items| - 1];
      RoutedNonNegative(items[..|items| - 1], taxes, a);
      RoutedCodesNonNegative(item.taxCodes, item.amount, taxes, a);
      RoutedDiscountsNonNegative(item.discounts, a);
    }
  }

  /** A payment takes from its payer at most its gross and from nobody else anything, and leaves every other
      payment as admissible as it was. */
  lemma PaymentIsGentle(op: Payment, l: Ledger, tx: Payment)
    requires NonNegativeRates(l.taxes) && Apply(PayOp(op), l).Ok?
    ensures var after := Apply(PayOp(op), l).value;
            && after.taxes == l.taxes
            && (forall a :: BalanceOf(after.accounts, a)
                            >= BalanceOf(l.accounts, a) - if a == op.payer.id then Gross(op) else 0)
            && (Admissible(tx, l) ==> Admissible(tx, after))
  {
    var after := Apply(PayOp(op), l).value;
    PaymentAcceptedIff(op, l);
    forall a
      ensures BalanceOf(after.accounts, a) >= BalanceOf(l.accounts, a) - if a == op.payer.id then Gross(op) else 0
    {
      PaymentEffect(op, l, a);
      forall i | 0 <= i < |op.items| ensures NonNegativeItem(op.items[i]) {
        assert ItemAllowed(op.items[i], l);
      }
      RoutedNonNegative(op.items, l.taxes, a);
    }
    if Admissible(tx, l) {
      PaymentEffect(op, l, tx.payer.id);
      forall item | item in tx.items ensures ItemAllowed(item, after) {
        assert ItemAllowed(item, l);
      }
    }
  }

  lemma {:induction false} PendingIsGentle(pending: seq<Payment>, l: Ledger, tx: Payment)
    requires NonNegativeRates(l.taxes) && GrossNonNegative(pending)
    requires Admissible(tx, l)
    ensures var after := Replayed(pending, l);
            && after.taxes == l.taxes
            && Admissible(tx, after)
            && BalanceOf(after.accounts, tx.payer.id)
               >= BalanceOf(l.accounts, tx.payer.id) - PendingGross(pending, tx.payer.id)
  {
    if pending != [] {
      var before := Replayed(pending[..|pending| - 1], l);
      PendingIsGentle(pending[..|pending| - 1], l, tx);
      if Apply(PayOp(pending[|pending| - 1]), before).Ok? {
        PaymentIsGentle(pending[|pending| - 1], before, tx);
      }
    }
  }

  lemma AdmissibleIgnoresBalances(tx: Payment, l: Ledger, accounts: Accounts)
    requires accounts.Keys == l.accounts.Keys
    ensures Admissible(tx, l) <==> Admissible(tx, l.(accounts := accounts))
  {
    var other := l.(accounts := accounts);
    assert forall item :: ItemAllowed(item, l) <==> ItemAllowed(item, other);
  }

  /** The fast check accepts exactly the admissible payments the payer can cover on top of what is reserved. */
  lemma AdmittedIff(tx: Payment, l: Ledger, reserved: int)
    ensures CheckAdmit(tx, l, reserved) == Accepted <==>
            Admissible(tx, l) && Gross(tx) <= BalanceOf(l.accounts, tx.payer.id) - reserved
  {
    if tx.payer.id in l.accounts {
      var accounts := Credit(l.accounts, tx.payer.id, -reserved);
      assert accounts.Keys == l.accounts.Keys;
      AdmissibleIgnoresBalances(tx, l, accounts);
      PaymentAcceptedIff(tx, l.(accounts := accounts));
    } else {
      PaymentAcceptedIff(tx, l);
    }
  }

  lemma {:induction false} PendingGrossIgnoresOrder(p: seq<Payment>, q: seq<Payment>, payer: AccountID)
    requires multiset(p) == multiset(q)
    ensures PendingGross(p, payer) == PendingGross(q, payer)
    decreases |p|
  {
    assert |multiset(p)| == |p| && |multiset(q)| == |q|;
    if p != [] {
      var init, last := p[..|p| - 1], p[|p| - 1];
      assert p == init + [last];
      assert last in multiset(q);
      var k :| 0 <= k < |q| && q[k] == last;
      var rest := q[..k] + q[k + 1..];
      assert q == q[..k] + ([last] + q[k + 1..]);
      assert multiset(rest) == multiset(q) - multiset{last};
      PendingGrossIgnoresOrder(init, rest, payer);
      PendingGrossConcat(q[..k], [last] + q[k + 1..], payer);
      PendingGrossConcat([last], q[k + 1..], payer);
      PendingGrossConcat(q[..k], q[k + 1..], payer);
      PendingGrossOne(last, payer);
    }
  }

  /** Whatever the fast check admits, with the reservation the pool keeps, the slow check admits too, in
      whatever order the pending payments are re-applied and whichever of them fail. */
  lemma FastAdmissionRefinesSlow(tx: Payment, pending: seq<Payment>, order: seq<Payment>, l: Ledger)
    requires NonNegativeRates(l.taxes) && GrossNonNegative(pending)
    requires multiset(order) == multiset(pending)
    requires CheckAdmit(tx, l, PendingGross(pending, tx.payer.id)) == Accepted
    ensures CheckPendingWith(tx, order, l) == Accepted
  {
    AdmittedIff(tx, l, PendingGross(pending, tx.payer.id));
    PendingGrossIgnoresOrder(order, pending, tx.payer.id);
    forall i | 0 <= i < |order| ensures 0 <= Gross(order[i]) {
      assert order[i] in multiset(order);
      assert order[i] in pending;
    }
    PendingIsGentle(order, l, tx);
    PaymentAcceptedIff(tx, Replayed(order, l));
  }
}
