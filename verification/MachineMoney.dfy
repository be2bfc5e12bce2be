/** Money on 64-bit integers: which accepted payments keep it, and that some do not. */
module MachineMoney {
  import opened Domain
  import opened Crypto
  import opened TaxRounding
  import opened LedgerRules
  import opened LedgerEffects
  import opened MachineInts

  /** What a payment posts to treasuries, added up without wrapping. */
  function Splits(tx: Payment, taxes: TaxTable): int { Amounts(ItemsPostingsM(tx.items, taxes)) }

  /** No tax is posted as a negative amount; with non-negative rates only a product that overflows can do that. */
  ghost predicate SplitsCredit(tx: Payment, taxes: TaxTable) { AllCredits(ItemsPostingsM(tx.items, taxes)) }

  // ---------------------------------------------------------------------------------------------
  // The net on machine integers
  // ---------------------------------------------------------------------------------------------

  lemma WrapSame(a: int, b: int, c: int, d: int)
    requires Wrap(a) == Wrap(c) && Wrap(b) == Wrap(d)
    ensures Wrap(a + b) == Wrap(c + d)
  {
    WrapSum(a, b);
    WrapSum(c, d);
  }

  lemma SumWraps(tax: int, discount: int, moreTax: int, moreDiscount: int, posted: int, more: int)
    requires Wrap(tax + discount) == Wrap(posted) && Wrap(moreTax + moreDiscount) == Wrap(more)
    ensures Wrap(Wrap(tax + moreTax) + Wrap(discount + moreDiscount)) == Wrap(posted + more)
  {
    hide Wrap, Int64;
    WrapSum(tax + moreTax, discount + moreDiscount);
    WrapSame(tax + discount, moreTax + moreDiscount, posted, more);
  }

  lemma DifferenceWraps(gross: int, tax: int, discount: int, posted: int)
    requires Int64(gross) && Int64(tax) && Int64(discount) && Wrap(tax + discount) == Wrap(posted)
    ensures Wrap(Wrap(gross - tax) - discount) == Wrap(gross - posted)
    ensures Wrap(Wrap(tax + discount) + Wrap(gross - posted)) == gross
  {
    hide Wrap, Int64;
    assert Wrap(gross) == gross && Wrap(discount) == discount;
    WrapDifference(gross - tax, discount);
    WrapDifference(gross, tax + discount);
    WrapDifference(gross, posted);
    WrapSum(posted, gross - posted);
  }

  lemma {:induction false} TaxPostingsWrap(codes: seq<TaxCode>, amount: int, taxes: TaxTable)
    ensures CodesTaxM(codes, amount, taxes) == Wrap(Amounts(TaxPostingsM(codes, amount, taxes)))
  {
    hide Wrap, TaxM;
    if codes != [] {
      var init, code := codes[..|codes| - 1], codes[|codes| - 1];
      TaxPostingsWrap(init, amount, taxes);
      if code in taxes {
        var last := Posting(taxes[code].taxAccount, TaxM(taxes[code].rateBps, amount));
        AmountsConcat(TaxPostingsM(init, amount, taxes), [last]);
        AmountsOne(last);
        WrapSame(CodesTaxM(init, amount, taxes), last.amount, Amounts(TaxPostingsM(init, amount, taxes)), last.amount);
      } else {
        assert TaxPostingsM(codes, amount, taxes) == TaxPostingsM(init, amount, taxes);
      }
    }
  }

  lemma LastItemWraps(item: LineItem, taxes: TaxTable)
    requires forall k :: 0 <= k < |item.discounts| ==> Int64(item.discounts[k].amount)
    ensures Wrap(CodesTaxM(item.taxCodes, item.amount, taxes) + DiscountsM(item.discounts))
            == Wrap(Amounts(TaxPostingsM(item.taxCodes, item.amount, taxes) + DiscountPostings(item.discounts)))
  {
    hide Wrap, Int64;
    var taxed, discounted := TaxPostingsM(item.taxCodes, item.amount, taxes), DiscountPostings(item.discounts);
    TaxPostingsWrap(item.taxCodes, item.amount, taxes);
    DiscountsWrap(item.discounts);
    DiscountAmounts(item.discounts);
    AmountsConcat(taxed, discounted);
    WrapSame(CodesTaxM(item.taxCodes, item.amount, taxes), DiscountsM(item.discounts), Amounts(taxed),
             Amounts(discounted));
  }

  lemma {:induction false} SplitsWrap(items: seq<LineItem>, taxes: TaxTable)
    requires Int64Fields(items)
    ensures Wrap(ItemsTaxM(items, taxes) + ItemsDiscountM(items)) == Wrap(Amounts(ItemsPostingsM(items, taxes)))
  {
    hide Wrap, Int64, CodesTaxM, DiscountsM, TaxPostingsM, DiscountPostings;
    if items != [] {
      var init, last := items[..|items| - 1], items[|items| - 1];
      var tax, discount := CodesTaxM(last.taxCodes, last.amount, taxes), DiscountsM(last.discounts);
      var posted := TaxPostingsM(last.taxCodes, last.amount, taxes) + DiscountPostings(last.discounts);
      SplitsWrap(init, taxes);
      LastItemWraps(last, taxes);
      AmountsConcat(ItemsPostingsM(init, taxes), posted);
      SumWraps(ItemsTaxM(init, taxes), ItemsDiscountM(init), tax, discount,
               Amounts(ItemsPostingsM(init, taxes)), Amounts(posted));
    }
  }

  lemma TotalsInt64(items: seq<LineItem>, taxes: TaxTable)
    ensures Int64(GrossM(items)) && Int64(ItemsTaxM(items, taxes)) && Int64(ItemsDiscountM(items))
  {
  }

  /** The net is the gross less everything posted to treasuries, wrapped once, whatever wrapped on the way. */
  lemma NetWraps(tx: Payment, taxes: TaxTable)
    requires Int64Fields(tx.items)
    ensures NetM(tx, taxes) == Wrap(GrossM(tx.items) - Splits(tx, taxes))
    ensures Wrap(Wrap(ItemsTaxM(tx.items, taxes) + ItemsDiscountM(tx.items)) + NetM(tx, taxes)) == GrossM(tx.items)
  {
    hide Wrap, Int64, GrossM, ItemsTaxM, ItemsDiscountM;
    TotalsInt64(tx.items, taxes);
    SplitsWrap(tx.items, taxes);
    DifferenceWraps(GrossM(tx.items), ItemsTaxM(tx.items, taxes), ItemsDiscountM(tx.items), Splits(tx, taxes));
  }

  /** The updates of a payment sum to zero if and only if its gross less its splits is a 64-bit integer: no other
      premise, on products, rates or acceptance. */
  lemma UpdatesSumToZeroIff(tx: Payment, taxes: TaxTable)
    requires Int64Fields(tx.items)
    ensures Amounts(PostingsM(tx, taxes)) == 0 <==> Int64(GrossM(tx.items) - Splits(tx, taxes))
  {
    hide GrossM, NetM, ItemsPostingsM, Wrap;
    NetWraps(tx, taxes);
    TransferAmounts(Posting(tx.payer.id, -GrossM(tx.items)), Posting(tx.payee.id, NetM(tx, taxes)),
                    ItemsPostingsM(tx.items, taxes));
  }

  // ---------------------------------------------------------------------------------------------
  // Acceptance
  // ---------------------------------------------------------------------------------------------

  ghost predicate WellFormedM(tx: Payment, l: Ledger) {
    && tx.id != "" && tx.payer.id != "" && tx.payee.id != "" && tx.items != []
    && forall item :: item in tx.items ==> ItemAllowed(item, l)
  }

  lemma FundsMIff(tx: Payment, l: Ledger)
    requires Int64Fields(tx.items)
    ensures CheckFundsM(tx, l) == Accepted <==>
            && 0 <= NetM(tx, l.taxes)
            && tx.payer.id in l.accounts && 0 < GrossM(tx.items) <= l.accounts[tx.payer.id].balance
            && tx.payer.id in l.keys && Verify(l.keys[tx.payer.id], PaymentBytes(tx), tx.signature)
    ensures CheckFundsM(tx, l) != Rejected(SplitMismatch)
    ensures CheckFundsM(tx, l) == Rejected(NonPositiveGross) <==> GrossM(tx.items) <= 0
  {
    hide Wrap, GrossM, NetM, ItemsTaxM, ItemsDiscountM;
    NetWraps(tx, l.taxes);
  }

  /** Acceptance on machine integers. A split mismatch is never the reason of a rejection here either; a non-positive
      gross is, exactly when the positive item amounts of an otherwise well-formed payment wrap around to one. */
  lemma MachineAcceptedIff(tx: Payment, l: Ledger)
    requires Int64Fields(tx.items)
    ensures CheckPaymentM(tx, l) == Accepted <==>
            && WellFormedM(tx, l)
            && 0 <= NetM(tx, l.taxes)
            && tx.payer.id in l.accounts && 0 < GrossM(tx.items) <= l.accounts[tx.payer.id].balance
            && tx.payer.id in l.keys && Verify(l.keys[tx.payer.id], PaymentBytes(tx), tx.signature)
    ensures CheckPaymentM(tx, l) != Rejected(SplitMismatch)
    ensures CheckPaymentM(tx, l) == Rejected(NonPositiveGross) <==> WellFormedM(tx, l) && GrossM(tx.items) <= 0
  {
    hide CheckFundsM, GrossM, NetM, ItemAllowed, CheckItems, Verify, PaymentBytes;
    ItemsAccepted(tx.items, l);
    ItemErrors(tx.items, l);
    FundsMIff(tx, l);
  }

  /** With non-negative rates and products in range, what an accepted payment posts to treasuries are credits, and
      they add up to its exact taxes and discounts. */
  lemma SplitsAreExact(tx: Payment, l: Ledger)
    requires NonNegativeRates(l.taxes) && ProductsFit(tx.items, l.taxes) && CheckPaymentM(tx, l) == Accepted
    ensures SplitsCredit(tx, l.taxes)
    ensures Splits(tx, l.taxes) == ItemsTax(tx.items, l.taxes) + ItemsDiscount(tx.items)
  {
    hide CheckFundsM;
    ItemsAccepted(tx.items, l);
    ItemsPostingsAreExact(tx.items, l.taxes);
    ItemsAmounts(tx.items, l.taxes);
    AllowedItemsNonNegative(tx.items, l);
    ItemsCredits(tx.items, l.taxes);
  }

  lemma AcceptedNet(tx: Payment, l: Ledger)
    requires Int64Fields(tx.items) && CheckPaymentM(tx, l) == Accepted && SplitsCredit(tx, l.taxes)
    ensures 0 < GrossM(tx.items) < TWO_63 && 0 <= NetM(tx, l.taxes) < TWO_63
    ensures GrossM(tx.items) <= BalanceOf(l.accounts, tx.payer.id)
    ensures Amounts(PostingsM(tx, l.taxes)) == 0 <==> Splits(tx, l.taxes) < TWO_63
  {
    hide Wrap, CheckPaymentM, WellFormedM, Verify, PostingsM, GrossM, NetM;
    MachineAcceptedIff(tx, l);
    TotalsInt64(tx.items, l.taxes);
    NonNegativeAmounts(ItemsPostingsM(tx.items, l.taxes));
    NetWraps(tx, l.taxes);
    UpdatesSumToZeroIff(tx, l.taxes);
  }

  /** The updates of an accepted payment sum to zero if and only if its exact taxes and discounts stay below 2^63. */
  lemma AcceptedUpdatesSumToZeroIff(tx: Payment, l: Ledger)
    requires Int64Fields(tx.items) && NonNegativeRates(l.taxes) && ProductsFit(tx.items, l.taxes)
    requires CheckPaymentM(tx, l) == Accepted
    ensures Amounts(PostingsM(tx, l.taxes)) == 0 <==>
            ItemsTax(tx.items, l.taxes) + ItemsDiscount(tx.items) < TWO_63
  {
    SplitsAreExact(tx, l);
    AcceptedNet(tx, l);
  }

  // ---------------------------------------------------------------------------------------------
  // Step by step
  // ---------------------------------------------------------------------------------------------

  ghost predicate BalancesFit(accounts: Accounts) {
    forall a :: BalanceOf(accounts, a) < TWO_63
  }

  ghost predicate Within(accounts: Accounts, supply: int) {
    forall a :: 0 <= BalanceOf(accounts, a) <= supply
  }

  ghost predicate WithinAt(accounts: Accounts, postings: seq<Posting>, n: int, supply: int) {
    0 <= n <= |postings| && Within(PostM(accounts, postings[..n]), supply)
  }

  /** After every single update every balance is between zero and the money supply, and the supply is what it was. */
  ghost predicate KeepsMoney(tx: Payment, l: Ledger) {
    var postings, supply := PostingsM(tx, l.taxes), Supply(l.accounts);
    && (forall n :: 0 <= n <= |postings| ==> WithinAt(l.accounts, postings, n, supply))
    && Supply(PostM(l.accounts, postings)) == supply
  }

  ghost predicate SmallAmounts(postings: seq<Posting>) {
    forall i :: 0 <= i < |postings| ==> -TWO_63 < postings[i].amount < TWO_63
  }

  // What exact arithmetic makes of a prefix is between zero and the supply, and fits.
  ghost predicate ExactAt(accounts: Accounts, postings: seq<Posting>, n: int, supply: int) {
    && 0 <= n <= |postings|
    && Within(Post(accounts, postings[..n]), supply) && BalancesFit(Post(accounts, postings[..n]))
  }

  lemma CreditInRange(accounts: Accounts, id: AccountID, amount: int)
    requires 0 <= BalanceOf(accounts, id) < TWO_63 && -TWO_63 < amount < TWO_63
    requires 0 <= BalanceOf(CreditM(accounts, id, amount), id)
             || 0 <= BalanceOf(Credit(accounts, id, amount), id) < TWO_63
    ensures CreditM(accounts, id, amount) == Credit(accounts, id, amount)
  {
    var sum := BalanceOf(accounts, id) + amount;
    WrapTurns(sum - TWO_64, 1);
  }

  lemma CreditKeepsFit(accounts: Accounts, id: AccountID, amount: int)
    requires BalancesFit(accounts)
    ensures BalancesFit(CreditM(accounts, id, amount))
  {
    forall a ensures BalanceOf(CreditM(accounts, id, amount), a) < TWO_63 {
      assert BalanceOf(accounts, a) < TWO_63;
    }
  }

  /** As long as balances stay non-negative on machine integers nothing wraps. */
  lemma {:induction false} InRangeIsExact(accounts: Accounts, postings: seq<Posting>, n: nat, supply: int)
    requires SmallAmounts(postings) && BalancesFit(accounts) && n <= |postings|
    requires forall m :: 0 <= m <= n ==> WithinAt(accounts, postings, m, supply)
    ensures PostM(accounts, postings[..n]) == Post(accounts, postings[..n])
    ensures ExactAt(accounts, postings, n, supply)
  {
    hide CreditM, Credit;
    assert WithinAt(accounts, postings, n, supply);
    if n > 0 {
      var last := postings[n - 1];
      assert postings[..n][..n - 1] == postings[..n - 1];
      InRangeIsExact(accounts, postings, n - 1, supply);
      CreditInRange(PostM(accounts, postings[..n - 1]), last.account, last.amount);
      CreditKeepsFit(PostM(accounts, postings[..n - 1]), last.account, last.amount);
    }
  }

  /** As long as exact balances stay in range nothing wraps. */
  lemma {:induction false} ExactIsInRange(accounts: Accounts, postings: seq<Posting>, n: nat, supply: int)
    requires SmallAmounts(postings) && n <= |postings|
    requires forall m :: 0 <= m <= n ==> ExactAt(accounts, postings, m, supply)
    ensures PostM(accounts, postings[..n]) == Post(accounts, postings[..n])
  {
    hide CreditM, Credit;
    if n > 0 {
      var last := postings[n - 1];
      assert postings[..n][..n - 1] == postings[..n - 1];
      ExactIsInRange(accounts, postings, n - 1, supply);
      assert ExactAt(accounts, postings, n - 1, supply) && ExactAt(accounts, postings, n, supply);
      CreditInRange(PostM(accounts, postings[..n - 1]), last.account, last.amount);
    }
  }

  lemma {:induction false} PrefixBelowFinal(accounts: Accounts, postings: seq<Posting>, n: nat, m: nat, a: AccountID)
    requires 0 < n <= m <= |postings| && AllCredits(postings[1..])
    ensures BalanceOf(Post(accounts, postings[..n]), a) <= BalanceOf(Post(accounts, postings[..m]), a)
    decreases m
  {
    if n < m {
      assert postings[..m][..m - 1] == postings[..m - 1];
      assert postings[m - 1] == postings[1..][m - 2];
      PrefixBelowFinal(accounts, postings, n, m - 1, a);
    }
  }

  lemma {:induction false} TaxPostingsInt64(codes: seq<TaxCode>, amount: int, taxes: TaxTable)
    ensures forall i :: 0 <= i < |TaxPostingsM(codes, amount, taxes)| ==>
              TaxPostingsM(codes, amount, taxes)[i].amount < TWO_63
  {
    if codes != [] {
      TaxPostingsInt64(codes[..|codes| - 1], amount, taxes);
    }
  }

  lemma {:induction false} DiscountPostingsInt64(discounts: seq<Discount>)
    requires forall k :: 0 <= k < |discounts| ==> Int64(discounts[k].amount)
    ensures forall i :: 0 <= i < |DiscountPostings(discounts)| ==> DiscountPostings(discounts)[i].amount < TWO_63
  {
    if discounts != [] {
      DiscountPostingsInt64(discounts[..|discounts| - 1]);
    }
  }

  lemma {:induction false} ItemsPostingsInt64(items: seq<LineItem>, taxes: TaxTable)
    requires Int64Fields(items)
    ensures forall i :: 0 <= i < |ItemsPostingsM(items, taxes)| ==> ItemsPostingsM(items, taxes)[i].amount < TWO_63
  {
    if items != [] {
      var last := items[|items| - 1];
      ItemsPostingsInt64(items[..|items| - 1], taxes);
      TaxPostingsInt64(last.taxCodes, last.amount, taxes);
      DiscountPostingsInt64(last.discounts);
    }
  }

  lemma {:induction false} TaxPostingsAbove(codes: seq<TaxCode>, amount: int, taxes: TaxTable)
    ensures forall i :: 0 <= i < |TaxPostingsM(codes, amount, taxes)| ==>
              -TWO_63 < TaxPostingsM(codes, amount, taxes)[i].amount
  {
    if codes != [] {
      TaxPostingsAbove(codes[..|codes| - 1], amount, taxes);
    }
  }

  lemma {:induction false} ItemsPostingsAbove(items: seq<LineItem>, taxes: TaxTable)
    requires forall i, k :: 0 <= i < |items| && 0 <= k < |items[i].discounts| ==> 0 <= items[i].discounts[k].amount
    ensures forall i :: 0 <= i < |ItemsPostingsM(items, taxes)| ==> -TWO_63 < ItemsPostingsM(items, taxes)[i].amount
  {
    if items != [] {
      var last := items[|items| - 1];
      ItemsPostingsAbove(items[..|items| - 1], taxes);
      TaxPostingsAbove(last.taxCodes, last.amount, taxes);
      forall d | d in last.discounts ensures 0 <= d.amount {
        var k :| 0 <= k < |last.discounts| && last.discounts[k] == d;
      }
      DiscountCredits(last.discounts);
    }
  }

  lemma AcceptedAmounts(tx: Payment, l: Ledger)
    requires Int64Fields(tx.items) && CheckPaymentM(tx, l) == Accepted
    ensures SmallAmounts(PostingsM(tx, l.taxes))
  {
    hide CheckPaymentM, ItemsPostingsM, GrossM, NetM, Int64Fields, Verify;
    var rest, postings := ItemsPostingsM(tx.items, l.taxes), PostingsM(tx, l.taxes);
    MachineAcceptedIff(tx, l);
    TotalsInt64(tx.items, l.taxes);
    NetWraps(tx, l.taxes);
    AllowedItemsNonNegative(tx.items, l);
    forall i, k | 0 <= i < |tx.items| && 0 <= k < |tx.items[i].discounts| ensures 0 <= tx.items[i].discounts[k].amount {
      assert NonNegativeItem(tx.items[i]);
    }
    ItemsPostingsInt64(tx.items, l.taxes);
    ItemsPostingsAbove(tx.items, l.taxes);
    forall i | 0 <= i < |postings| ensures -TWO_63 < postings[i].amount < TWO_63 {
      assert 2 <= i ==> postings[i] == rest[i - 2];
    }
  }

  lemma AcceptedTransfer(tx: Payment, l: Ledger)
    requires Int64Fields(tx.items) && CheckPaymentM(tx, l) == Accepted && SplitsCredit(tx, l.taxes)
    ensures SmallAmounts(PostingsM(tx, l.taxes)) && CoveredDebit(l.accounts, PostingsM(tx, l.taxes))
  {
    hide CheckPaymentM, ItemsPostingsM, GrossM, NetM;
    var postings := PostingsM(tx, l.taxes);
    AcceptedNet(tx, l);
    AcceptedAmounts(tx, l);
    assert postings[1..] == [postings[1]] + ItemsPostingsM(tx.items, l.taxes);
  }

  /** Any accepted payment keeps money if and only if its gross less its splits is a 64-bit integer and, computed
      exactly, its balance updates never leave the range between zero and the supply, or 64 bits. */
  lemma KeepsMoneyIffExact(tx: Payment, l: Ledger)
    requires NonNegative(l.accounts) && BalancesFit(l.accounts)
    requires Int64Fields(tx.items) && CheckPaymentM(tx, l) == Accepted
    ensures KeepsMoney(tx, l) <==>
            && Int64(GrossM(tx.items) - Splits(tx, l.taxes))
            && forall n :: 0 <= n <= |PostingsM(tx, l.taxes)| ==>
                 ExactAt(l.accounts, PostingsM(tx, l.taxes), n, Supply(l.accounts))
  {
    hide CheckPaymentM, PostingsM, Splits, NonNegative, BalancesFit, Int64Fields, ExactAt, GrossM;
    var postings, supply := PostingsM(tx, l.taxes), Supply(l.accounts);
    AcceptedAmounts(tx, l);
    UpdatesSumToZeroIff(tx, l.taxes);
    PostSupply(l.accounts, postings);
    assert postings[..|postings|] == postings;
    if KeepsMoney(tx, l) {
      forall n | 0 <= n <= |postings| ensures ExactAt(l.accounts, postings, n, supply) {
        InRangeIsExact(l.accounts, postings, n, supply);
      }
      InRangeIsExact(l.accounts, postings, |postings|, supply);
    }
    if forall n :: 0 <= n <= |postings| ==> ExactAt(l.accounts, postings, n, supply) {
      forall n | 0 <= n <= |postings| ensures WithinAt(l.accounts, postings, n, supply) {
        ExactIsInRange(l.accounts, postings, n, supply);
        ExactIsWithin(l.accounts, postings, n, supply);
      }
      ExactIsInRange(l.accounts, postings, |postings|, supply);
    }
  }

  lemma ExactIsWithin(accounts: Accounts, postings: seq<Posting>, n: nat, supply: int)
    requires ExactAt(accounts, postings, n, supply) && PostM(accounts, postings[..n]) == Post(accounts, postings[..n])
    ensures WithinAt(accounts, postings, n, supply)
  {
  }

  lemma CreditsStayExact(accounts: Accounts, postings: seq<Posting>, n: nat)
    requires NonNegative(accounts) && BalancesFit(accounts) && n <= |postings|
    requires CoveredDebit(accounts, postings) && Amounts(postings) == 0 && BalancesFit(Post(accounts, postings))
    ensures ExactAt(accounts, postings, n, Supply(accounts))
  {
    hide Amounts, CoveredDebit, Supply, Post;
    assert postings[..|postings|] == postings;
    forall a ensures 0 <= BalanceOf(Post(accounts, postings[..n]), a) <= Supply(accounts)
             ensures BalanceOf(Post(accounts, postings[..n]), a) < TWO_63
    {
      PrefixBounded(accounts, postings, n, a);
      if n == 0 {
        NothingPosted(accounts, postings[..0]);
      } else {
        OnlyCredits(accounts, postings);
        PrefixBelowFinal(accounts, postings, n, |postings|, a);
      }
    }
  }

  lemma NothingPosted(accounts: Accounts, none: seq<Posting>)
    requires none == []
    ensures Post(accounts, none) == accounts
  {
  }

  lemma OnlyCredits(accounts: Accounts, postings: seq<Posting>)
    requires CoveredDebit(accounts, postings)
    ensures AllCredits(postings[1..])
  {
  }

  /** An accepted payment that posts no negative tax keeps money, update by update and in total, if and only if what it
      posts to treasuries adds up to less than 2^63 and, computed exactly, no balance it leaves reaches 2^63. */
  lemma MachinePaymentConservesIff(tx: Payment, l: Ledger)
    requires NonNegative(l.accounts) && BalancesFit(l.accounts)
    requires Int64Fields(tx.items) && CheckPaymentM(tx, l) == Accepted && SplitsCredit(tx, l.taxes)
    ensures KeepsMoney(tx, l) <==>
            Splits(tx, l.taxes) < TWO_63 && BalancesFit(Post(l.accounts, PostingsM(tx, l.taxes)))
  {
    hide KeepsMoney, CheckPaymentM, PostingsM, Splits, SplitsCredit, NonNegative, BalancesFit, Int64Fields, GrossM,
      Supply, Within;
    var postings := PostingsM(tx, l.taxes);
    AcceptedTransfer(tx, l);
    AcceptedNet(tx, l);
    UpdatesSumToZeroIff(tx, l.taxes);
    KeepsMoneyIffExact(tx, l);
    assert postings[..|postings|] == postings;
    if Splits(tx, l.taxes) < TWO_63 && BalancesFit(Post(l.accounts, postings)) {
      forall n | 0 <= n <= |postings| ensures ExactAt(l.accounts, postings, n, Supply(l.accounts)) {
        CreditsStayExact(l.accounts, postings, n);
      }
    }
    if KeepsMoney(tx, l) {
      assert ExactAt(l.accounts, postings, |postings|, Supply(l.accounts));
    }
  }

  lemma SupplyBounds(accounts: Accounts)
    requires NonNegative(accounts) && Supply(accounts) < TWO_63
    ensures BalancesFit(accounts) && Within(accounts, Supply(accounts))
  {
    SumOverBounds(accounts.Keys, accounts);
  }

  /** Under a money supply below 2^63 the second half holds by itself. */
  lemma SmallSupplyConservesIff(tx: Payment, l: Ledger)
    requires NonNegative(l.accounts) && Supply(l.accounts) < TWO_63
    requires Int64Fields(tx.items) && CheckPaymentM(tx, l) == Accepted && SplitsCredit(tx, l.taxes)
    ensures KeepsMoney(tx, l) <==> Splits(tx, l.taxes) < TWO_63
    ensures Splits(tx, l.taxes) < TWO_63 ==> BalancesFit(Post(l.accounts, PostingsM(tx, l.taxes)))
  {
    hide KeepsMoney, CheckPaymentM, PostingsM, Splits, SplitsCredit, Int64Fields, CoveredDebit;
    var postings := PostingsM(tx, l.taxes);
    SupplyBounds(l.accounts);
    AcceptedTransfer(tx, l);
    AcceptedNet(tx, l);
    MachinePaymentConservesIff(tx, l);
    assert postings[..|postings|] == postings;
    if Splits(tx, l.taxes) < TWO_63 {
      forall a ensures BalanceOf(Post(l.accounts, postings), a) < TWO_63 {
        PrefixBounded(l.accounts, postings, |postings|, a);
      }
    }
  }

  // ---------------------------------------------------------------------------------------------
  // Runs
  // ---------------------------------------------------------------------------------------------

  /** The operations a node can be given. */
  ghost predicate Int64Ops(ops: seq<Op>) {
    forall i :: 0 <= i < |ops| && ops[i].PayOp? ==> Int64Fields(ops[i].payment.items)
  }

  /** ... and no tax is posted as a negative amount. */
  ghost predicate Payable(ops: seq<Op>, taxes: TaxTable) {
    forall i :: 0 <= i < |ops| && ops[i].PayOp? ==>
      Int64Fields(ops[i].payment.items) && SplitsCredit(ops[i].payment, taxes)
  }

  lemma PayableIsInt64(ops: seq<Op>, taxes: TaxTable)
    requires Payable(ops, taxes)
    ensures Int64Ops(ops)
  {
    hide Int64Fields, SplitsCredit;
  }

  ghost predicate SplitsFit(ops: seq<Op>, taxes: TaxTable) {
    forall i :: 0 <= i < |ops| && ops[i].PayOp? ==> Splits(ops[i].payment, taxes) < TWO_63
  }

  ghost predicate OpKeepsMoney(op: Op, l: Ledger) {
    match op
    case PayOp(tx) => KeepsMoney(tx, l)
    case CloseOp(tx) =>
      Within(ClosedM(tx, l).accounts, Supply(l.accounts)) && Supply(ClosedM(tx, l).accounts) == Supply(l.accounts)
    case CreateOp(_) => true
  }

  /** What a caller can check of an operation on the ledger it is about to be applied to. Only a negative tax makes it
      necessary to look at every single update. */
  ghost predicate OpFits(op: Op, l: Ledger) {
    match op
    case PayOp(tx) =>
      if SplitsCredit(tx, l.taxes) then
        Splits(tx, l.taxes) < TWO_63 && BalancesFit(Post(l.accounts, PostingsM(tx, l.taxes)))
      else
        && Int64(GrossM(tx.items) - Splits(tx, l.taxes))
        && forall n :: 0 <= n <= |PostingsM(tx, l.taxes)| ==>
             ExactAt(l.accounts, PostingsM(tx, l.taxes), n, Supply(l.accounts))
    case CloseOp(tx) => BalancesFit(Closed(tx, l).accounts)
    case CreateOp(_) => true
  }

  /** Every operation of the run keeps money on the ledger it is applied to. */
  ghost predicate RunKeepsMoney(ops: seq<Op>, l: Ledger) {
    ops == [] ||
    var init, last := ops[..|ops| - 1], ops[|ops| - 1];
    RunKeepsMoney(init, l) && RunM(init, l).Ok? && OpKeepsMoney(last, RunM(init, l).value)
  }

  ghost predicate RunFits(ops: seq<Op>, l: Ledger) {
    ops == [] ||
    var init, last := ops[..|ops| - 1], ops[|ops| - 1];
    RunFits(init, l) && RunM(init, l).Ok? && OpFits(last, RunM(init, l).value)
  }

  /** A ledger whose balances are 64-bit and not negative. */
  ghost predicate Sound64(l: Ledger) { Sound(l) && BalancesFit(l.accounts) }

  lemma PaidKeepsSound(tx: Payment, l: Ledger)
    requires Sound64(l) && ApplyM(PayOp(tx), l).Ok? && KeepsMoney(tx, l)
    ensures Sound64(ApplyM(PayOp(tx), l).value)
    ensures Supply(ApplyM(PayOp(tx), l).value.accounts) == Supply(l.accounts)
  {
    hide CheckPaymentM, PostingsM;
    var postings := PostingsM(tx, l.taxes);
    var after := ApplyM(PayOp(tx), l).value.accounts;
    assert WithinAt(l.accounts, postings, |postings|, Supply(l.accounts));
    assert postings[..|postings|] == postings;
    forall a | a in after ensures 0 <= after[a].balance {
      assert 0 <= BalanceOf(after, a);
    }
    PostKeepsFit(l.accounts, postings);
  }

  lemma {:induction false} PostKeepsFit(accounts: Accounts, postings: seq<Posting>)
    requires BalancesFit(accounts)
    ensures BalancesFit(PostM(accounts, postings))
  {
    if postings != [] {
      var last := postings[|postings| - 1];
      PostKeepsFit(accounts, postings[..|postings| - 1]);
      CreditKeepsFit(PostM(accounts, postings[..|postings| - 1]), last.account, last.amount);
    }
  }

  /** The exact effect of a 64-bit close: the swept balance arrives where it should, wrapped once. */
  lemma MachineCloseEffect(tx: AccountClose, l: Ledger, a: AccountID)
    requires ApplyM(CloseOp(tx), l).Ok? && Int64(BalanceOf(l.accounts, a))
    ensures var after, closed := ApplyM(CloseOp(tx), l).value, l.accounts[tx.account];
            var to := if tx.destination == "" then "federal_treasury" else tx.destination;
            && (a in after.accounts <==> a in l.accounts && a != tx.account)
            && (a in after.accounts ==>
                  after.accounts[a] == l.accounts[a].(balance := Wrap(l.accounts[a].balance
                    + if closed.kind == Person && 0 < closed.balance && a == to then closed.balance else 0)))
            && (a in after.keys <==> a in l.keys && a != tx.account)
            && (a in after.keys ==> after.keys[a] == l.keys[a])
            && after.(accounts := l.accounts, keys := l.keys) == l
  {
    CloseAcceptedIff(tx, l);
  }

  lemma CloseFits(tx: AccountClose, l: Ledger)
    requires Sound64(l) && ApplyM(CloseOp(tx), l).Ok?
    ensures OpKeepsMoney(CloseOp(tx), l) <==> OpFits(CloseOp(tx), l)
    ensures OpFits(CloseOp(tx), l) ==> ApplyM(CloseOp(tx), l) == Apply(CloseOp(tx), l)
  {
    hide ApplyM, Apply, OpKeepsMoney, OpFits, Sound64;
    if OpFits(CloseOp(tx), l) {
      FittingCloseIsExact(tx, l);
    } else {
      OverflowingCloseLoses(tx, l);
    }
  }

  lemma FittingCloseIsExact(tx: AccountClose, l: Ledger)
    requires Sound64(l) && ApplyM(CloseOp(tx), l).Ok? && OpFits(CloseOp(tx), l)
    ensures OpKeepsMoney(CloseOp(tx), l) && ApplyM(CloseOp(tx), l) == Apply(CloseOp(tx), l)
  {
    hide Supply;
    var account, to := l.accounts[tx.account], CloseDestination(tx);
    if account.kind == Person && 0 < account.balance {
      assert BalanceOf(Closed(tx, l).accounts, to) == BalanceOf(l.accounts, to) + account.balance;
      CreditInRange(l.accounts, to, account.balance);
    }
    ApplyConserves(CloseOp(tx), l);
    SoundWithin(Closed(tx, l).accounts);
  }

  // Two balances below 2^63 add up to less than 2^64, so their sum wraps to a negative balance.
  lemma OverflowingCloseLoses(tx: AccountClose, l: Ledger)
    requires Sound64(l) && ApplyM(CloseOp(tx), l).Ok? && !OpFits(CloseOp(tx), l)
    ensures !OpKeepsMoney(CloseOp(tx), l)
  {
    hide Supply;
    var account, to := l.accounts[tx.account], CloseDestination(tx);
    var a :| TWO_63 <= BalanceOf(Closed(tx, l).accounts, a);
    assert BalanceOf(l.accounts, a) < TWO_63;
    assert a == to && TWO_63 <= BalanceOf(l.accounts, to) + account.balance;
    var sum := BalanceOf(l.accounts, to) + account.balance;
    WrapTurns(sum - TWO_64, 1);
    assert BalanceOf(l.accounts, tx.account) < TWO_63;
    assert Wrap(sum) == sum - TWO_64;
    assert BalanceOf(ClosedM(tx, l).accounts, to) == Wrap(sum);
  }

  lemma SoundWithin(accounts: Accounts)
    requires NonNegative(accounts)
    ensures Within(accounts, Supply(accounts))
  {
    SumOverBounds(accounts.Keys, accounts);
  }

  /** Which accepted operations keep money: creates always, closes unless the destination overflows, payments as
      above. */
  lemma OpKeepsMoneyIff(op: Op, l: Ledger)
    requires Sound64(l) && ApplyM(op, l).Ok?
    requires op.PayOp? ==> Int64Fields(op.payment.items)
    ensures OpKeepsMoney(op, l) <==> OpFits(op, l)
  {
    hide KeepsMoney, CheckPaymentM, PostingsM, Splits, SplitsCredit, Int64Fields, BalancesFit, ClosedM, Closed,
      CheckClose, CheckCreate, Supply, Within;
    match op
    case PayOp(tx) =>
      if SplitsCredit(tx, l.taxes) {
        MachinePaymentConservesIff(tx, l);
      } else {
        KeepsMoneyIffExact(tx, l);
      }
    case CloseOp(tx) => CloseFits(tx, l);
    case CreateOp(_) =>
  }

  lemma CreateKeepsSound(tx: AccountCreate, l: Ledger)
    requires Sound64(l) && ApplyM(CreateOp(tx), l).Ok?
    ensures Sound64(ApplyM(CreateOp(tx), l).value)
    ensures Supply(ApplyM(CreateOp(tx), l).value.accounts) == Supply(l.accounts)
  {
    ApplyConserves(CreateOp(tx), l);
    forall a ensures BalanceOf(Created(tx, l).accounts, a) < TWO_63 {
      assert BalanceOf(l.accounts, a) < TWO_63;
    }
  }

  lemma OpKeepsSound(op: Op, l: Ledger)
    requires Sound64(l) && ApplyM(op, l).Ok? && OpKeepsMoney(op, l) && OpFits(op, l)
    ensures Sound64(ApplyM(op, l).value) && ApplyM(op, l).value.taxes == l.taxes
    ensures Supply(ApplyM(op, l).value.accounts) == Supply(l.accounts)
  {
    hide Supply, KeepsMoney, CheckPaymentM, PostingsM, Splits, CheckClose, CheckCreate;
    ApplyMKeepsTaxes(op, l);
    match op
    case PayOp(tx) => PaidKeepsSound(tx, l);
    case CloseOp(tx) =>
      CloseFits(tx, l);
      ApplyConserves(op, l);
    case CreateOp(tx) => CreateKeepsSound(tx, l);
  }

  lemma ApplyMKeepsTaxes(op: Op, l: Ledger)
    requires ApplyM(op, l).Ok?
    ensures ApplyM(op, l).value.taxes == l.taxes
  {
  }

  lemma AcceptedPays(tx: Payment, l: Ledger)
    requires ApplyM(PayOp(tx), l).Ok?
    ensures CheckPaymentM(tx, l) == Accepted
  {
  }

  /** On 64-bit integers an accepted run keeps money, operation by operation and update by update, if and only if every
      operation fits the ledger it is applied to; and then its ledger has the supply it started with. */
  lemma {:induction false} MachineRunConservesIff(ops: seq<Op>, l: Ledger)
    requires Sound64(l) && RunM(ops, l).Ok? && Int64Ops(ops)
    ensures RunKeepsMoney(ops, l) <==> RunFits(ops, l)
    ensures RunKeepsMoney(ops, l) ==>
              && Sound64(RunM(ops, l).value) && RunM(ops, l).value.taxes == l.taxes
              && Supply(RunM(ops, l).value.accounts) == Supply(l.accounts)
  {
    hide ApplyM, OpKeepsMoney, OpFits, Int64Fields, Sound64, Supply;
    if ops != [] {
      var init, last := ops[..|ops| - 1], ops[|ops| - 1];
      MachineRunConservesIff(init, l);
      if RunKeepsMoney(init, l) {
        OpKeepsMoneyIff(last, RunM(init, l).value);
        if OpFits(last, RunM(init, l).value) {
          OpKeepsSound(last, RunM(init, l).value);
        }
      }
    }
  }

  ghost predicate InputsFit(ops: seq<Op>, taxes: TaxTable) {
    forall i :: 0 <= i < |ops| && ops[i].PayOp? ==>
      Int64Fields(ops[i].payment.items) && ProductsFit(ops[i].payment.items, taxes)
  }

  ghost predicate ExactSplitsFit(ops: seq<Op>, taxes: TaxTable) {
    forall i :: 0 <= i < |ops| && ops[i].PayOp? ==>
      ItemsTax(ops[i].payment.items, taxes) + ItemsDiscount(ops[i].payment.items) < TWO_63
  }

  lemma {:induction false} AcceptedRunPays(ops: seq<Op>, l: Ledger)
    requires NonNegativeRates(l.taxes) && RunM(ops, l).Ok? && InputsFit(ops, l.taxes)
    ensures RunM(ops, l).value.taxes == l.taxes
    ensures Payable(ops, l.taxes) && (SplitsFit(ops, l.taxes) <==> ExactSplitsFit(ops, l.taxes))
  {
    hide Splits, SplitsCredit, Int64Fields, ProductsFit, ApplyM, CheckPaymentM, ItemsTax, ItemsDiscount,
      NonNegativeRates;
    if ops != [] {
      var init, last := ops[..|ops| - 1], ops[|ops| - 1];
      AcceptedRunPays(init, l);
      ApplyMKeepsTaxes(last, RunM(init, l).value);
      if last.PayOp? {
        AcceptedPays(last.payment, RunM(init, l).value);
        SplitsAreExact(last.payment, RunM(init, l).value);
      }
    }
  }

  lemma SmallSupplyOpFits(op: Op, l: Ledger)
    requires Sound(l) && Supply(l.accounts) < TWO_63 && ApplyM(op, l).Ok?
    requires op.PayOp? ==> Int64Fields(op.payment.items) && SplitsCredit(op.payment, l.taxes)
    ensures OpFits(op, l) <==> op.PayOp? ==> Splits(op.payment, l.taxes) < TWO_63
  {
    hide Supply, PostingsM, Splits, CheckPaymentM, CheckClose, SplitsCredit, Int64Fields, Closed;
    match op
    case PayOp(tx) => SmallSupplyConservesIff(tx, l);
    case CloseOp(tx) =>
      ApplyConserves(op, l);
      SupplyBounds(Closed(tx, l).accounts);
    case CreateOp(_) =>
  }

  lemma PayableParts(ops: seq<Op>, taxes: TaxTable)
    requires ops != []
    ensures var init, last := ops[..|ops| - 1], ops[|ops| - 1];
            && (Payable(ops, taxes) <==>
                Payable(init, taxes)
                && (last.PayOp? ==> Int64Fields(last.payment.items) && SplitsCredit(last.payment, taxes)))
            && (SplitsFit(ops, taxes) <==>
                SplitsFit(init, taxes) && (last.PayOp? ==> Splits(last.payment, taxes) < TWO_63))
  {
    hide Int64Fields, SplitsCredit, Splits;
    var init := ops[..|ops| - 1];
    assert forall i :: 0 <= i < |init| ==> init[i] == ops[i];
  }

  lemma {:induction false} SmallSupplyFits(ops: seq<Op>, l: Ledger)
    requires Sound(l) && Supply(l.accounts) < TWO_63 && RunM(ops, l).Ok? && Payable(ops, l.taxes)
    ensures RunFits(ops, l) <==> SplitsFit(ops, l.taxes)
  {
    hide ApplyM, OpFits, OpKeepsMoney, Splits, SplitsCredit, Int64Fields, Supply, Payable;
    if ops != [] {
      var init, last := ops[..|ops| - 1], ops[|ops| - 1];
      PayableParts(ops, l.taxes);
      SmallSupplyFits(init, l);
      SupplyBounds(l.accounts);
      PayableIsInt64(init, l.taxes);
      MachineRunConservesIff(init, l);
      if RunFits(init, l) {
        SmallSupplyOpFits(last, RunM(init, l).value);
      }
    }
  }

  /** In the payments' own terms: with products in range and a money supply below 2^63, an accepted run keeps money if
      and only if in every payment the exact taxes and discounts together stay below 2^63. */
  lemma RunKeepsMoneyIff(ops: seq<Op>, l: Ledger)
    requires Sound(l) && Supply(l.accounts) < TWO_63 && RunM(ops, l).Ok? && InputsFit(ops, l.taxes)
    ensures RunKeepsMoney(ops, l) <==> ExactSplitsFit(ops, l.taxes)
    ensures RunKeepsMoney(ops, l) ==>
              Sound(RunM(ops, l).value) && Supply(RunM(ops, l).value.accounts) == Supply(l.accounts)
  {
    hide RunM, RunKeepsMoney, RunFits, InputsFit, Supply;
    AcceptedRunPays(ops, l);
    SupplyBounds(l.accounts);
    SmallSupplyFits(ops, l);
    PayableIsInt64(ops, l.taxes);
    MachineRunConservesIff(ops, l);
  }

  // ---------------------------------------------------------------------------------------------
  // The effect on one account, and the rounding of taxes
  // ---------------------------------------------------------------------------------------------

  lemma WrapMore(x: int, y: int)
    ensures Wrap(Wrap(x) + y) == Wrap(x + y)
  {
    hide Int64;
    WrapSum(Wrap(x), y);
    WrapSum(x, y);
    assert Int64(Wrap(x));
    assert Wrap(Wrap(x)) == Wrap(x);
  }

  /** Updates wrap each time, and the balance they leave is the exact one wrapped once. */
  lemma {:induction false} PostMEffect(accounts: Accounts, postings: seq<Posting>, a: AccountID)
    requires Int64(BalanceOf(accounts, a))
    ensures BalanceOf(PostM(accounts, postings), a) == Wrap(BalanceOf(accounts, a) + PostedTo(postings, a))
    ensures a in PostM(accounts, postings) <==> a in accounts || Mentions(postings, a)
    ensures AccountAt(PostM(accounts, postings), a).(balance := 0) == AccountAt(accounts, a).(balance := 0)
  {
    hide Wrap;
    if postings != [] {
      var init, last := postings[..|postings| - 1], postings[|postings| - 1];
      PostMEffect(accounts, init, a);
      WrapMore(BalanceOf(accounts, a) + PostedTo(init, a), last.amount);
      assert Mentions(postings, a) <==> Mentions(init, a) || last.account == a by {
        assert forall p :: p in postings <==> p in init || p == last;
      }
    }
  }

  // Wrapping changes what is posted, never to whom.
  ghost predicate SameAccounts(p: seq<Posting>, q: seq<Posting>) {
    |p| == |q| && forall i :: 0 <= i < |p| ==> p[i].account == q[i].account
  }

  lemma {:induction false} TaxPostingsSameAccounts(codes: seq<TaxCode>, amount: int, taxes: TaxTable)
    ensures SameAccounts(TaxPostingsM(codes, amount, taxes), TaxPostings(codes, amount, taxes))
  {
    hide Tax, TaxM;
    if codes != [] {
      TaxPostingsSameAccounts(codes[..|codes| - 1], amount, taxes);
    }
  }

  lemma {:induction false} ItemsPostingsSameAccounts(items: seq<LineItem>, taxes: TaxTable)
    ensures SameAccounts(ItemsPostingsM(items, taxes), ItemsPostings(items, taxes))
  {
    if items != [] {
      ItemsPostingsSameAccounts(items[..|items| - 1], taxes);
      TaxPostingsSameAccounts(items[|items| - 1].taxCodes, items[|items| - 1].amount, taxes);
    }
  }

  lemma SameAccountsMention(p: seq<Posting>, q: seq<Posting>, a: AccountID)
    requires SameAccounts(p, q) && Mentions(p, a)
    ensures Mentions(q, a)
  {
    var posting :| posting in p && posting.account == a;
    var i :| 0 <= i < |p| && p[i] == posting;
    assert q[i] in q;
  }

  lemma TransferRoutes(debit: Posting, credit: Posting, rest: seq<Posting>, a: AccountID)
    ensures PostedTo([debit, credit] + rest, a)
            == (if debit.account == a then debit.amount else 0) + (if credit.account == a then credit.amount else 0)
               + PostedTo(rest, a)
    ensures Mentions([debit, credit] + rest, a) <==> debit.account == a || credit.account == a || Mentions(rest, a)
  {
    PostedToOne(debit, a);
    PostedToOne(credit, a);
    PostedToConcat([debit], [credit], a);
    assert [debit] + [credit] == [debit, credit];
    PostedToConcat([debit, credit], rest, a);
  }

  lemma PayerExists(tx: Payment, l: Ledger)
    requires ApplyM(PayOp(tx), l).Ok?
    ensures tx.payer.id in l.accounts
  {
  }

  /** The exact effect of any payment the 64-bit ledger accepts on any account, however payer, payee and tax accounts
      coincide and whichever of them did not exist before, whatever wraps. */
  lemma MachinePaymentEffect(tx: Payment, l: Ledger, a: AccountID)
    requires ApplyM(PayOp(tx), l).Ok? && Int64(BalanceOf(l.accounts, a))
    ensures var after := ApplyM(PayOp(tx), l).value;
            && BalanceOf(after.accounts, a)
               == Wrap(BalanceOf(l.accounts, a)
                       - (if a == tx.payer.id then GrossM(tx.items) else 0)
                       + (if a == tx.payee.id then NetM(tx, l.taxes) else 0)
                       + PostedTo(ItemsPostingsM(tx.items, l.taxes), a))
            && (a in after.accounts <==>
                a in l.accounts || a == tx.payee.id || ItemsRouteTo(tx.items, l.taxes, a))
            && AccountAt(after.accounts, a).id == AccountAt(l.accounts, a).id
            && AccountAt(after.accounts, a).kind == AccountAt(l.accounts, a).kind
            && after.(accounts := l.accounts) == l
  {
    hide GrossM, NetM, ItemsPostingsM, ItemsPostings, ItemsRouteTo, PostedTo, Mentions, Wrap, CheckPaymentM;
    var rest := ItemsPostingsM(tx.items, l.taxes);
    PayerExists(tx, l);
    PostMEffect(l.accounts, PostingsM(tx, l.taxes), a);
    TransferRoutes(Posting(tx.payer.id, -GrossM(tx.items)), Posting(tx.payee.id, NetM(tx, l.taxes)), rest, a);
    ItemsPostingsSameAccounts(tx.items, l.taxes);
    ItemsPostingsRoute(tx.items, l.taxes, a);
    if Mentions(rest, a) {
      SameAccountsMention(rest, ItemsPostings(tx.items, l.taxes), a);
    }
    if Mentions(ItemsPostings(tx.items, l.taxes), a) {
      SameAccountsMention(ItemsPostings(tx.items, l.taxes), rest, a);
    }
  }

  /** A 64-bit tax is the exact one, and loses less than one unit, if and only if its product does not overflow. */
  lemma TaxIsExactIff(rate: int, amount: int)
    ensures TaxM(rate, amount) == Tax(rate, amount) <==> Int64(rate * amount)
    ensures -9999 <= rate * amount - 10000 * TaxM(rate, amount) <= 9999 <==> Int64(rate * amount)
  {
    hide TruncDiv;
    var product := rate * amount;
    var turns := WrapsApart(product);
    assert TaxM(rate, amount) == TruncDiv(Wrap(product), BPS) && Tax(rate, amount) == TruncDiv(product, BPS);
    assert Int64(product) <==> turns == 0;
  }

  /** With products in range the 64-bit tax total is the exact one if and only if that fits, and then it obeys the
      rounding bound. */
  lemma MachineTaxRounding(items: seq<LineItem>, taxes: TaxTable)
    requires ProductsFit(items, taxes)
    ensures ItemsTaxM(items, taxes) == ItemsTax(items, taxes) <==> Int64(ItemsTax(items, taxes))
    ensures var lost := ExactTax(items, taxes) - 10000 * ItemsTaxM(items, taxes);
            Int64(ItemsTax(items, taxes)) ==>
              && -9999 * Divisions(items) <= lost <= 9999 * Divisions(items)
              && (NonNegativeRates(taxes) && (forall item :: item in items ==> 0 <= item.amount) ==> 0 <= lost)
  {
    hide Wrap, ItemsTaxM, ItemsTax, ExactTax;
    ItemsTaxWraps(items, taxes);
    TaxRoundingBound(items, taxes);
  }

  // ---------------------------------------------------------------------------------------------
  // When machine integers are exact
  // ---------------------------------------------------------------------------------------------

  ghost predicate TotalsFit(tx: Payment, taxes: TaxTable) {
    Gross(tx) < TWO_63 && ItemsTax(tx.items, taxes) + ItemsDiscount(tx.items) < TWO_63
  }

  lemma {:induction false} AllowedSplits(items: seq<LineItem>, l: Ledger)
    requires NonNegativeRates(l.taxes) && forall item :: item in items ==> ItemAllowed(item, l)
    ensures 0 <= ItemsGross(items) && 0 <= ItemsTax(items, l.taxes) && 0 <= ItemsDiscount(items)
  {
    if items != [] {
      var init, last := items[..|items| - 1], items[|items| - 1];
      assert last in items && forall item :: item in init ==> item in items;
      AllowedSplits(init, l);
      assert ItemAllowed(last, l);
      TaxCredits(last.taxCodes, last.amount, l.taxes);
      TaxAmounts(last.taxCodes, last.amount, l.taxes);
      NonNegativeAmounts(TaxPostings(last.taxCodes, last.amount, l.taxes));
      DiscountCredits(last.discounts);
      DiscountAmounts(last.discounts);
      NonNegativeAmounts(DiscountPostings(last.discounts));
    }
  }

  lemma FittingTotalsFit(tx: Payment, l: Ledger)
    requires NonNegativeRates(l.taxes) && Int64Fields(tx.items) && ProductsFit(tx.items, l.taxes)
    requires CheckItems(tx.items, l) == Accepted && TotalsFit(tx, l.taxes)
    ensures Fits(tx, l.taxes)
  {
    ItemsAccepted(tx.items, l);
    AllowedSplits(tx.items, l);
  }

  lemma AcceptedTotalsFit(tx: Payment, l: Ledger)
    requires Sound(l) && Supply(l.accounts) < TWO_63 && CheckPayment(tx, l) == Accepted
    ensures CheckItems(tx.items, l) == Accepted && TotalsFit(tx, l.taxes)
  {
    PaymentAcceptedIff(tx, l);
    SumOverBounds(l.accounts.Keys, l.accounts);
  }

  /** What the unbounded rules accept, 64-bit arithmetic does identically. What 64-bit arithmetic accepts, it does as
      the unbounded rules would if and only if the gross and the sum of taxes and discounts stay below 2^63. */
  lemma ApplyIsExactIff(op: Op, l: Ledger)
    requires Sound(l) && Supply(l.accounts) < TWO_63
    requires op.PayOp? ==> Int64Fields(op.payment.items) && ProductsFit(op.payment.items, l.taxes)
    ensures Apply(op, l).Ok? ==> ApplyM(op, l) == Apply(op, l)
    ensures ApplyM(op, l).Ok? ==> (ApplyM(op, l) == Apply(op, l) <==> op.PayOp? ==> TotalsFit(op.payment, l.taxes))
  {
    hide CheckFunds, CheckFundsM, CheckCreate, CheckClose, CheckItems, Fits, TotalsFit, Supply;
    if op.PayOp? {
      if Apply(op, l).Ok? {
        AcceptedTotalsFit(op.payment, l);
      }
      if TotalsFit(op.payment, l.taxes) && CheckItems(op.payment.items, l) == Accepted {
        FittingTotalsFit(op.payment, l);
        ApplyIsExact(op, l);
      }
    } else {
      ApplyIsExact(op, l);
    }
  }

  ghost predicate AllTotalsFit(ops: seq<Op>, taxes: TaxTable) {
    forall i :: 0 <= i < |ops| && ops[i].PayOp? ==> TotalsFit(ops[i].payment, taxes)
  }

  /** The same over runs: an accepted unbounded run is the machine run, and an accepted machine run is the unbounded one
      if and only if every payment's gross, and its taxes and discounts together, stay below 2^63. */
  lemma {:induction false} RunIsExactIff(ops: seq<Op>, l: Ledger)
    requires Sound(l) && Supply(l.accounts) < TWO_63 && InputsFit(ops, l.taxes)
    ensures Run(ops, l).Ok? ==> RunM(ops, l) == Run(ops, l)
    ensures RunM(ops, l).Ok? ==> (RunM(ops, l) == Run(ops, l) <==> AllTotalsFit(ops, l.taxes))
  {
    hide Apply, ApplyM, TotalsFit, Supply, Sound;
    if ops != [] {
      var init, last := ops[..|ops| - 1], ops[|ops| - 1];
      RunIsExactIff(init, l);
      if Run(init, l).Ok? {
        RunConserves(init, l);
        RunFrame(init, l);
        ApplyIsExactIff(last, Run(init, l).value);
      }
    }
  }
}
