/** What the ledger rules mean: when a payment is accepted, what it does to each account, what is conserved. */
module LedgerEffects {
  import opened Domain
  import opened Crypto
  import opened LedgerRules
  import opened TaxRounding

  // ---------------------------------------------------------------------------------------------
  // Acceptance
  // ---------------------------------------------------------------------------------------------

  ghost predicate ItemAllowed(item: LineItem, l: Ledger) {
    && 0 < item.amount
    && (forall code :: code in item.taxCodes ==> code in l.taxes && l.taxes[code].taxAccount in l.allowed)
    && (forall d :: d in item.discounts ==> 0 <= d.amount && d.taxAccount in l.allowed)
  }

  /** Everything a payment must satisfy apart from the payer's funds. */
  ghost predicate Admissible(tx: Payment, l: Ledger) {
    && tx.id != "" && tx.payer.id != "" && tx.payee.id != ""
    && tx.items != []
    && (forall item :: item in tx.items ==> ItemAllowed(item, l))
    && 0 <= Net(tx, l.taxes)
    && tx.payer.id in l.accounts
    && tx.payer.id in l.keys
    && Verify(l.keys[tx.payer.id], PaymentBytes(tx), tx.signature)
  }

  lemma {:induction false} CodesAccepted(codes: seq<TaxCode>, l: Ledger)
    ensures CheckCodes(codes, l) == Accepted <==>
            forall code :: code in codes ==> code in l.taxes && l.taxes[code].taxAccount in l.allowed
  {
    if codes != [] {
      CodesAccepted(codes[..|codes| - 1], l);
      assert codes == codes[..|codes| - 1] + [codes[|codes| - 1]];
    }
  }

  lemma {:induction false} DiscountsAccepted(discounts: seq<Discount>, l: Ledger)
    ensures CheckDiscounts(discounts, l) == Accepted <==>
            forall d :: d in discounts ==> 0 <= d.amount && d.taxAccount in l.allowed
  {
    if discounts != [] {
      DiscountsAccepted(discounts[..|discounts| - 1], l);
      assert discounts == discounts[..|discounts| - 1] + [discounts[|discounts| - 1]];
    }
  }

  lemma {:induction false} ItemsAccepted(items: seq<LineItem>, l: Ledger)
    ensures CheckItems(items, l) == Accepted <==> forall item :: item in items ==> ItemAllowed(item, l)
  {
    if items != [] {
      var last := items[|items| - 1];
      ItemsAccepted(items[..|items| - 1], l);
      CodesAccepted(last.taxCodes, l);
      DiscountsAccepted(last.discounts, l);
      assert CheckItem(last, l) == Accepted <==> ItemAllowed(last, l);
      assert forall item :: item in items <==> item in items[..|items| - 1] || item == last;
    }
  }

  lemma {:induction false} AllowedItemsGross(items: seq<LineItem>, l: Ledger)
    requires forall item :: item in items ==> ItemAllowed(item, l)
    ensures |items| <= ItemsGross(items)
  {
    if items != [] {
      assert items[|items| - 1] in items;
      AllowedItemsGross(items[..|items| - 1], l);
    }
  }

  /** A payment is accepted exactly when it is admissible and the payer can cover the gross amount. In
      particular the non-positive-gross and split-mismatch errors are never the reason for a rejection. */
  lemma PaymentAcceptedIff(tx: Payment, l: Ledger)
    ensures CheckPayment(tx, l) == Accepted <==>
            Admissible(tx, l) && Gross(tx) <= BalanceOf(l.accounts, tx.payer.id)
    ensures Admissible(tx, l) ==> 0 < Gross(tx)
    ensures CheckPayment(tx, l) != Rejected(NonPositiveGross) && CheckPayment(tx, l) != Rejected(SplitMismatch)
  {
    ItemsAccepted(tx.items, l);
    if forall item :: item in tx.items ==> ItemAllowed(item, l) {
      AllowedItemsGross(tx.items, l);
    }
    ItemErrors(tx.items, l);
  }

  lemma {:induction false} ItemErrors(items: seq<LineItem>, l: Ledger)
    ensures CheckItems(items, l) != Rejected(NonPositiveGross) && CheckItems(items, l) != Rejected(SplitMismatch)
  {
    if items != [] {
      var last := items[|items| - 1];
      ItemErrors(items[..|items| - 1], l);
      CodeErrors(last.taxCodes, l);
      DiscountErrors(last.discounts, l);
    }
  }

  lemma {:induction false} CodeErrors(codes: seq<TaxCode>, l: Ledger)
    ensures CheckCodes(codes, l) != Rejected(NonPositiveGross) && CheckCodes(codes, l) != Rejected(SplitMismatch)
  {
    if codes != [] {
      CodeErrors(codes[..|codes| - 1], l);
    }
  }

  lemma {:induction false} DiscountErrors(discounts: seq<Discount>, l: Ledger)
    ensures CheckDiscounts(discounts, l) != Rejected(NonPositiveGross)
            && CheckDiscounts(discounts, l) != Rejected(SplitMismatch)
  {
    if discounts != [] {
      DiscountErrors(discounts[..|discounts| - 1], l);
    }
  }

  // ---------------------------------------------------------------------------------------------
  // The effect of a payment on one account
  // ---------------------------------------------------------------------------------------------

  function RoutedCodes(codes: seq<TaxCode>, amount: int, taxes: TaxTable, a: AccountID): int {
    if codes == [] then 0 else
      var code := codes[|codes| - 1];
      RoutedCodes(codes[..|codes| - 1], amount, taxes, a)
      + if code in taxes && taxes[code].taxAccount == a then Tax(taxes[code].rateBps, amount) else 0
  }

  function RoutedDiscounts(discounts: seq<Discount>, a: AccountID): int {
    if discounts == [] then 0 else
      var d := discounts[|discounts| - 1];
      RoutedDiscounts(discounts[..|discounts| - 1], a) + if d.taxAccount == a then d.amount else 0
  }

  /** All tax splits and discounts of the items that go to account a. */
  function Routed(items: seq<LineItem>, taxes: TaxTable, a: AccountID): int {
    if items == [] then 0 else
      var item := items[|items| - 1];
      Routed(items[..|items| - 1], taxes, a)
      + (RoutedCodes(item.taxCodes, item.amount, taxes, a) + RoutedDiscounts(item.discounts, a))
  }

  ghost predicate RoutesTo(item: LineItem, taxes: TaxTable, a: AccountID) {
    CodesRouteTo(item.taxCodes, taxes, a) || DiscountsRouteTo(item.discounts, a)
  }

  function PostedTo(postings: seq<Posting>, a: AccountID): int {
    if postings == [] then 0 else
      var last := postings[|postings| - 1];
      PostedTo(postings[..|postings| - 1], a) + if last.account == a then last.amount else 0
  }

  ghost predicate Mentions(postings: seq<Posting>, a: AccountID) {
    exists p :: p in postings && p.account == a
  }

  lemma {:induction false} PostEffect(accounts: Accounts, postings: seq<Posting>, a: AccountID)
    ensures BalanceOf(Post(accounts, postings), a) == BalanceOf(accounts, a) + PostedTo(postings, a)
    ensures a in Post(accounts, postings) <==> a in accounts || Mentions(postings, a)
    ensures AccountAt(Post(accounts, postings), a).(balance := 0) == AccountAt(accounts, a).(balance := 0)
  {
    if postings != [] {
      var init := postings[..|postings| - 1];
      PostEffect(accounts, init, a);
      assert postings == init + [postings[|postings| - 1]];
    }
  }

  lemma {:induction false} PostedToConcat(p: seq<Posting>, q: seq<Posting>, a: AccountID)
    ensures PostedTo(p + q, a) == PostedTo(p, a) + PostedTo(q, a)
    ensures Mentions(p + q, a) <==> Mentions(p, a) || Mentions(q, a)
  {
    assert forall x :: x in p + q <==> x in p || x in q;
    if q == [] {
      assert p + q == p;
    } else {
      PostedToConcat(p, q[..|q| - 1], a);
      assert (p + q)[..|p + q| - 1] == p + q[..|q| - 1];
    }
  }

  lemma PostedToOne(posting: Posting, a: AccountID)
    ensures PostedTo([posting], a) == if posting.account == a then posting.amount else 0
    ensures Mentions([posting], a) <==> posting.account == a
  {
    assert [posting][..0] == [];
    assert posting in [posting];
  }

  ghost predicate CodesRouteTo(codes: seq<TaxCode>, taxes: TaxTable, a: AccountID) {
    exists code :: code in codes && code in taxes && taxes[code].taxAccount == a
  }

  ghost predicate DiscountsRouteTo(discounts: seq<Discount>, a: AccountID) {
    exists d :: d in discounts && d.amount != 0 && d.taxAccount == a
  }

  lemma {:induction false} TaxPostingsRoute(codes: seq<TaxCode>, amount: int, taxes: TaxTable, a: AccountID)
    ensures PostedTo(TaxPostings(codes, amount, taxes), a) == RoutedCodes(codes, amount, taxes, a)
    ensures Mentions(TaxPostings(codes, amount, taxes), a) <==> CodesRouteTo(codes, taxes, a)
  {
    if codes != [] {
      var init, code := codes[..|codes| - 1], codes[|codes| - 1];
      TaxPostingsRoute(init, amount, taxes, a);
      assert forall c :: c in codes <==> c in init || c == code;
      if code in taxes {
        var last := Posting(taxes[code].taxAccount, Tax(taxes[code].rateBps, amount));
        PostedToConcat(TaxPostings(init, amount, taxes), [last], a);
        PostedToOne(last, a);
      } else {
        assert TaxPostings(codes, amount, taxes) == TaxPostings(init, amount, taxes);
      }
    }
  }

  lemma {:induction false} DiscountPostingsRoute(discounts: seq<Discount>, a: AccountID)
    ensures PostedTo(DiscountPostings(discounts), a) == RoutedDiscounts(discounts, a)
    ensures Mentions(DiscountPostings(discounts), a) <==> DiscountsRouteTo(discounts, a)
  {
    if discounts != [] {
      var init, last := discounts[..|discounts| - 1], discounts[|discounts| - 1];
      DiscountPostingsRoute(init, a);
      assert forall d :: d in discounts <==> d in init || d == last;
      if last.amount != 0 {
        var posting := Posting(last.taxAccount, last.amount);
        PostedToConcat(DiscountPostings(init), [posting], a);
        PostedToOne(posting, a);
      } else {
        assert DiscountPostings(discounts) == DiscountPostings(init);
      }
    }
  }

  lemma ItemPostingsRoute(item: LineItem, taxes: TaxTable, a: AccountID)
    ensures PostedTo(ItemPostings(item, taxes), a)
            == RoutedCodes(item.taxCodes, item.amount, taxes, a) + RoutedDiscounts(item.discounts, a)
    ensures Mentions(ItemPostings(item, taxes), a) <==> RoutesTo(item, taxes, a)
  {
    TaxPostingsRoute(item.taxCodes, item.amount, taxes, a);
    DiscountPostingsRoute(item.discounts, a);
    PostedToConcat(TaxPostings(item.taxCodes, item.amount, taxes), DiscountPostings(item.discounts), a);
  }

  ghost predicate ItemsRouteTo(items: seq<LineItem>, taxes: TaxTable, a: AccountID) {
    exists i :: 0 <= i < |items| && RoutesTo(items[i], taxes, a)
  }

  lemma {:induction false} ItemsPostingsRoute(items: seq<LineItem>, taxes: TaxTable, a: AccountID)
    ensures PostedTo(ItemsPostings(items, taxes), a) == Routed(items, taxes, a)
    ensures Mentions(ItemsPostings(items, taxes), a) <==> ItemsRouteTo(items, taxes, a)
  {
    hide RoutesTo, ItemPostings, RoutedCodes, RoutedDiscounts;
    if items != [] {
      var init, last := items[..|items| - 1], items[|items| - 1];
      ItemsPostingsRoute(init, taxes, a);
      ItemPostingsRoute(last, taxes, a);
      PostedToConcat(ItemsPostings(init, taxes), ItemPostings(last, taxes), a);
      assert ItemsRouteTo(items, taxes, a) <==> ItemsRouteTo(init, taxes, a) || RoutesTo(last, taxes, a);
    }
  }

  lemma PostingsRoute(tx: Payment, taxes: TaxTable, a: AccountID)
    ensures PostedTo(Postings(tx, taxes), a)
            == (if a == tx.payer.id then -Gross(tx) else 0) + (if a == tx.payee.id then Net(tx, taxes) else 0)
               + Routed(tx.items, taxes, a)
    ensures Mentions(Postings(tx, taxes), a) <==>
            a == tx.payer.id || a == tx.payee.id || ItemsRouteTo(tx.items, taxes, a)
  {
    hide ItemsPostings, PostedTo, Mentions, Gross, Net;
    var debit, credit := Posting(tx.payer.id, -Gross(tx)), Posting(tx.payee.id, Net(tx, taxes));
    PostedToOne(debit, a);
    PostedToOne(credit, a);
    PostedToConcat([debit], [credit], a);
    assert [debit] + [credit] == [debit, credit];
    PostedToConcat([debit, credit], ItemsPostings(tx.items, taxes), a);
    ItemsPostingsRoute(tx.items, taxes, a);
  }

  /** The exact effect of an accepted payment on any account, however payer, payee and tax accounts coincide
      and whichever of them did not exist before. */
  lemma PaymentEffect(tx: Payment, l: Ledger, a: AccountID)
    requires Apply(PayOp(tx), l).Ok?
    ensures var after := Apply(PayOp(tx), l).value;
            && BalanceOf(after.accounts, a) == BalanceOf(l.accounts, a)
               - (if a == tx.payer.id then Gross(tx) else 0)
               + (if a == tx.payee.id then Net(tx, l.taxes) else 0)
               + Routed(tx.items, l.taxes, a)
            && (a in after.accounts <==>
                a in l.accounts || a == tx.payee.id || ItemsRouteTo(tx.items, l.taxes, a))
            && AccountAt(after.accounts, a).id == AccountAt(l.accounts, a).id
            && AccountAt(after.accounts, a).kind == AccountAt(l.accounts, a).kind
            && after.(accounts := l.accounts) == l
  {
    PaymentAcceptedIff(tx, l);
    PostEffect(l.accounts, Postings(tx, l.taxes), a);
    PostingsRoute(tx, l.taxes, a);
  }

  // ---------------------------------------------------------------------------------------------
  // Account creates and closes
  // ---------------------------------------------------------------------------------------------

  /** A create is accepted exactly for a new, empty person or merchant account with a usable key, vouched for by
      some validator. */
  lemma CreateAcceptedIff(tx: AccountCreate, l: Ledger)
    ensures CheckCreate(tx, l) == Accepted <==>
            && tx.id != "" && tx.account.id != "" && tx.account.id !in l.accounts
            && (tx.account.kind == Person || tx.account.kind == Merchant) && tx.account.balance == 0
            && tx.publicKey.Encoded?
            && exists v :: v in l.validators && Verify(l.validators[v], CreateBytes(tx), tx.signature)
  {
  }

  /** A create adds one account with balance zero and its key, and changes nothing else. */
  lemma CreateEffect(tx: AccountCreate, l: Ledger, a: AccountID)
    requires Apply(CreateOp(tx), l).Ok?
    ensures var after := Apply(CreateOp(tx), l).value;
            && BalanceOf(after.accounts, a) == BalanceOf(l.accounts, a)
            && (a in after.accounts <==> a in l.accounts || a == tx.account.id)
            && (a in l.accounts ==> after.accounts[a] == l.accounts[a])
            && (a == tx.account.id ==> after.accounts[a].kind == tx.account.kind && after.accounts[a].id == a
                                       && a in after.keys && Ok(after.keys[a]) == ParseKey(tx.publicKey))
            && (a != tx.account.id ==>
                  (a in after.keys <==> a in l.keys) && (a in l.keys ==> after.keys[a] == l.keys[a]))
            && after.(accounts := l.accounts, keys := l.keys) == l
  {
  }

  /** Who may close an account: any validator for a person, whose balance then needs another existing account to go
      to, the one the close names or else the federal treasury; the owner for a merchant, whose balance must be zero and
      who may name no destination. The key given must be the registered one. */
  lemma CloseAcceptedIff(tx: AccountClose, l: Ledger)
    ensures CheckClose(tx, l) == Accepted <==>
            && tx.id != "" && tx.account != "" && tx.account in l.accounts && tx.account in l.keys
            && tx.publicKey.Encoded? && tx.publicKey.key == l.keys[tx.account]
            && var account := l.accounts[tx.account];
               || (account.kind == Person
                   && (tx.destination != "" ==> tx.destination != tx.account && tx.destination in l.accounts)
                   && (tx.destination == "" ==> tx.account != "federal_treasury" && "federal_treasury" in l.accounts)
                   && exists v :: v in l.validators && Verify(l.validators[v], CloseBytes(tx), tx.signature))
               || (account.kind == Merchant && account.balance == 0 && tx.destination == ""
                   && Verify(l.keys[tx.account], CloseBytes(tx), tx.signature))
  {
  }

  /** A close removes one account and its key; a positive balance of a person moves in full to the destination it names,
      or to the federal treasury if it names none, which keeps its id and type; nothing else changes. */
  lemma CloseEffect(tx: AccountClose, l: Ledger, a: AccountID)
    requires Apply(CloseOp(tx), l).Ok?
    ensures var after, closed := Apply(CloseOp(tx), l).value, l.accounts[tx.account];
            var to := if tx.destination == "" then "federal_treasury" else tx.destination;
            && (a in after.accounts <==> a in l.accounts && a != tx.account)
            && (a in after.accounts ==>
                  after.accounts[a] == l.accounts[a].(balance := l.accounts[a].balance
                    + if closed.kind == Person && 0 < closed.balance && a == to then closed.balance else 0))
            && (a in after.keys <==> a in l.keys && a != tx.account)
            && (a in after.keys ==> after.keys[a] == l.keys[a])
            && after.(accounts := l.accounts, keys := l.keys) == l
  {
  }

  // ---------------------------------------------------------------------------------------------
  // Money supply
  // ---------------------------------------------------------------------------------------------

  ghost function SumOver(ids: set<AccountID>, accounts: Accounts): int {
    if ids == {} then 0 else
      var id :| id in ids;
      BalanceOf(accounts, id) + SumOver(ids - {id}, accounts)
  }

  ghost function Supply(accounts: Accounts): int { SumOver(accounts.Keys, accounts) }

  lemma {:induction false} SumOverPick(ids: set<AccountID>, accounts: Accounts, id: AccountID)
    requires id in ids
    ensures SumOver(ids, accounts) == BalanceOf(accounts, id) + SumOver(ids - {id}, accounts)
    decreases ids
  {
    var picked :|
      picked in ids && SumOver(ids, accounts) == BalanceOf(accounts, picked) + SumOver(ids - {picked}, accounts);
    if picked != id {
      SumOverPick(ids - {picked}, accounts, id);
      SumOverPick(ids - {id}, accounts, picked);
      assert ids - {picked} - {id} == ids - {id} - {picked};
    }
  }

  lemma {:induction false} SumOverSame(ids: set<AccountID>, a: Accounts, b: Accounts)
    requires forall id :: id in ids ==> BalanceOf(a, id) == BalanceOf(b, id)
    ensures SumOver(ids, a) == SumOver(ids, b)
    decreases ids
  {
    if ids != {} {
      var id :| id in ids;
      SumOverPick(ids, a, id);
      SumOverPick(ids, b, id);
      SumOverSame(ids - {id}, a, b);
    }
  }

  lemma CreditSupply(accounts: Accounts, id: AccountID, amount: int)
    ensures Supply(Credit(accounts, id, amount)) == Supply(accounts) + amount
  {
    var after := Credit(accounts, id, amount);
    SumOverPick(after.Keys, after, id);
    SumOverSame(after.Keys - {id}, after, accounts);
    if id in accounts {
      assert after.Keys == accounts.Keys;
      SumOverPick(accounts.Keys, accounts, id);
    } else {
      assert after.Keys - {id} == accounts.Keys;
    }
  }

  lemma RemoveSupply(accounts: Accounts, id: AccountID)
    requires id in accounts
    ensures Supply(accounts - {id}) == Supply(accounts) - accounts[id].balance
  {
    var after := accounts - {id};
    assert after.Keys == accounts.Keys - {id};
    SumOverPick(accounts.Keys, accounts, id);
    SumOverSame(after.Keys, after, accounts);
  }

  function Amounts(postings: seq<Posting>): int {
    if postings == [] then 0 else Amounts(postings[..|postings| - 1]) + postings[|postings| - 1].amount
  }

  lemma {:induction false} PostSupply(accounts: Accounts, postings: seq<Posting>)
    ensures Supply(Post(accounts, postings)) == Supply(accounts) + Amounts(postings)
  {
    if postings != [] {
      var init, last := postings[..|postings| - 1], postings[|postings| - 1];
      PostSupply(accounts, init);
      CreditSupply(Post(accounts, init), last.account, last.amount);
    }
  }

  lemma {:induction false} AmountsConcat(p: seq<Posting>, q: seq<Posting>)
    ensures Amounts(p + q) == Amounts(p) + Amounts(q)
  {
    if q == [] {
      assert p + q == p;
    } else {
      AmountsConcat(p, q[..|q| - 1]);
      assert (p + q)[..|p + q| - 1] == p + q[..|q| - 1];
    }
  }

  lemma AmountsOne(posting: Posting)
    ensures Amounts([posting]) == posting.amount
  {
    assert [posting][..0] == [];
  }

  ghost predicate AllCredits(postings: seq<Posting>) {
    forall i :: 0 <= i < |postings| ==> 0 <= postings[i].amount
  }

  lemma TaxNonNegative(rate: int, amount: int)
    requires 0 <= rate && 0 <= amount
    ensures 0 <= Tax(rate, amount)
  {
    assert 0 <= rate * amount;
  }

  lemma {:induction false} TaxCredits(codes: seq<TaxCode>, amount: int, taxes: TaxTable)
    requires NonNegativeRates(taxes) && 0 <= amount
    ensures AllCredits(TaxPostings(codes, amount, taxes))
  {
    hide Tax;
    if codes != [] {
      var code := codes[|codes| - 1];
      TaxCredits(codes[..|codes| - 1], amount, taxes);
      if code in taxes {
        TaxNonNegative(taxes[code].rateBps, amount);
      }
    }
  }

  lemma {:induction false} TaxAmounts(codes: seq<TaxCode>, amount: int, taxes: TaxTable)
    ensures Amounts(TaxPostings(codes, amount, taxes)) == CodesTax(codes, amount, taxes)
  {
    hide Tax;
    if codes != [] {
      var init, code := codes[..|codes| - 1], codes[|codes| - 1];
      TaxAmounts(init, amount, taxes);
      if code in taxes {
        var last := Posting(taxes[code].taxAccount, Tax(taxes[code].rateBps, amount));
        AmountsConcat(TaxPostings(init, amount, taxes), [last]);
        AmountsOne(last);
      } else {
        assert TaxPostings(codes, amount, taxes) == TaxPostings(init, amount, taxes);
      }
    }
  }

  lemma {:induction false} DiscountCredits(discounts: seq<Discount>)
    requires forall d :: d in discounts ==> 0 <= d.amount
    ensures AllCredits(DiscountPostings(discounts))
  {
    if discounts != [] {
      assert discounts[|discounts| - 1] in discounts;
      DiscountCredits(discounts[..|discounts| - 1]);
    }
  }

  lemma {:induction false} DiscountAmounts(discounts: seq<Discount>)
    ensures Amounts(DiscountPostings(discounts)) == DiscountsSum(discounts)
  {
    if discounts != [] {
      var init, last := discounts[..|discounts| - 1], discounts[|discounts| - 1];
      DiscountAmounts(init);
      if last.amount != 0 {
        var posting := Posting(last.taxAccount, last.amount);
        AmountsConcat(DiscountPostings(init), [posting]);
        AmountsOne(posting);
      } else {
        assert DiscountPostings(discounts) == DiscountPostings(init);
      }
    }
  }

  ghost predicate NonNegativeItem(item: LineItem) {
    0 <= item.amount && forall d :: d in item.discounts ==> 0 <= d.amount
  }

  lemma {:induction false} ItemsCredits(items: seq<LineItem>, taxes: TaxTable)
    requires NonNegativeRates(taxes) && forall i :: 0 <= i < |items| ==> NonNegativeItem(items[i])
    ensures AllCredits(ItemsPostings(items, taxes))
  {
    if items != [] {
      ItemsCredits(items[..|items| - 1], taxes);
      TaxCredits(items[|items| - 1].taxCodes, items[|items| - 1].amount, taxes);
      DiscountCredits(items[|items| - 1].discounts);
    }
  }

  lemma ItemAmounts(item: LineItem, taxes: TaxTable)
    ensures Amounts(ItemPostings(item, taxes)) == ItemTax(item, taxes) + DiscountsSum(item.discounts)
  {
    TaxAmounts(item.taxCodes, item.amount, taxes);
    DiscountAmounts(item.discounts);
    AmountsConcat(TaxPostings(item.taxCodes, item.amount, taxes), DiscountPostings(item.discounts));
  }

  lemma {:induction false} ItemsAmounts(items: seq<LineItem>, taxes: TaxTable)
    ensures Amounts(ItemsPostings(items, taxes)) == ItemsTax(items, taxes) + ItemsDiscount(items)
  {
    if items != [] {
      var init, last := items[..|items| - 1], items[|items| - 1];
      ItemsAmounts(init, taxes);
      ItemAmounts(last, taxes);
      AmountsConcat(ItemsPostings(init, taxes), ItemPostings(last, taxes));
    }
  }

  lemma TransferAmounts(debit: Posting, credit: Posting, rest: seq<Posting>)
    ensures Amounts([debit, credit] + rest) == debit.amount + credit.amount + Amounts(rest)
  {
    AmountsOne(debit);
    AmountsOne(credit);
    AmountsConcat([debit], [credit]);
    assert [debit] + [credit] == [debit, credit];
    AmountsConcat([debit, credit], rest);
  }

  /** A payment's updates sum to zero and, after the debit, only add. */
  lemma PaymentPostings(tx: Payment, l: Ledger)
    ensures Amounts(Postings(tx, l.taxes)) == 0
    ensures NonNegativeRates(l.taxes) && Admissible(tx, l) ==> AllCredits(Postings(tx, l.taxes)[1..])
  {
    hide ItemsPostings, Verify;
    var items := ItemsPostings(tx.items, l.taxes);
    TransferAmounts(Posting(tx.payer.id, -Gross(tx)), Posting(tx.payee.id, Net(tx, l.taxes)), items);
    ItemsAmounts(tx.items, l.taxes);
    if NonNegativeRates(l.taxes) && Admissible(tx, l) {
      AllowedItemsNonNegative(tx.items, l);
      ItemsCredits(tx.items, l.taxes);
    }
  }

  lemma AllowedItemsNonNegative(items: seq<LineItem>, l: Ledger)
    requires forall item :: item in items ==> ItemAllowed(item, l)
    ensures forall i :: 0 <= i < |items| ==> NonNegativeItem(items[i])
  {
    forall i | 0 <= i < |items| ensures NonNegativeItem(items[i]) {
      assert ItemAllowed(items[i], l);
    }
  }

  ghost predicate NonNegative(accounts: Accounts) {
    forall id :: id in accounts ==> 0 <= accounts[id].balance
  }

  /** Non-negative balances and rates, as BuildInitialState and the genesis file provide them. */
  ghost predicate Sound(l: Ledger) { NonNegative(l.accounts) && NonNegativeRates(l.taxes) }

  lemma {:induction false} SumOverBounds(ids: set<AccountID>, accounts: Accounts)
    requires NonNegative(accounts)
    ensures 0 <= SumOver(ids, accounts)
    ensures forall id :: id in ids ==> BalanceOf(accounts, id) <= SumOver(ids, accounts)
    decreases ids
  {
    if ids != {} {
      var id :| id in ids && SumOver(ids, accounts) == BalanceOf(accounts, id) + SumOver(ids - {id}, accounts);
      assert 0 <= BalanceOf(accounts, id);
      SumOverBounds(ids - {id}, accounts);
    }
  }

  // One debit that is covered, then only credits.
  ghost predicate CoveredDebit(accounts: Accounts, postings: seq<Posting>) {
    && postings != []
    && 0 <= BalanceOf(accounts, postings[0].account) + postings[0].amount
    && AllCredits(postings[1..])
  }

  lemma {:induction false} NonNegativeAmounts(postings: seq<Posting>)
    requires AllCredits(postings)
    ensures 0 <= Amounts(postings)
  {
    if postings != [] {
      NonNegativeAmounts(postings[..|postings| - 1]);
    }
  }

  lemma {:induction false} PrefixNonNegative(accounts: Accounts, postings: seq<Posting>, n: nat)
    requires NonNegative(accounts) && CoveredDebit(accounts, postings) && n <= |postings|
    ensures NonNegative(Post(accounts, postings[..n]))
  {
    if n != 0 {
      PrefixNonNegative(accounts, postings, n - 1);
      assert postings[..n][..n - 1] == postings[..n - 1];
      assert 1 < n ==> postings[n - 1] == postings[1..][n - 2];
    }
  }

  lemma CreditsLater(postings: seq<Posting>, n: nat)
    requires 0 < n <= |postings| && AllCredits(postings[1..])
    ensures AllCredits(postings[n..])
  {
    forall i | 0 <= i < |postings[n..]| ensures 0 <= postings[n..][i].amount {
      assert postings[n..][i] == postings[1..][n - 1 + i];
    }
  }

  // The debit comes first, so what the remaining updates still have to add was taken already.
  lemma PrefixAmounts(postings: seq<Posting>, n: nat)
    requires postings != [] && AllCredits(postings[1..]) && Amounts(postings) == 0 && n <= |postings|
    ensures Amounts(postings[..n]) <= 0
  {
    hide Amounts, AllCredits;
    AmountsConcat(postings[..n], postings[n..]);
    assert postings[..n] + postings[n..] == postings;
    if 0 < n {
      CreditsLater(postings, n);
      NonNegativeAmounts(postings[n..]);
    } else {
      assert postings[n..] == postings;
    }
  }

  /** After any number of updates that sum to zero, start with a covered debit and then only add, every balance lies
      between zero and the money supply. */
  lemma PrefixBounded(accounts: Accounts, postings: seq<Posting>, n: nat, a: AccountID)
    requires NonNegative(accounts) && CoveredDebit(accounts, postings) && Amounts(postings) == 0 && n <= |postings|
    ensures NonNegative(Post(accounts, postings[..n]))
    ensures 0 <= BalanceOf(Post(accounts, postings[..n]), a) <= Supply(accounts)
  {
    var partial := Post(accounts, postings[..n]);
    PrefixNonNegative(accounts, postings, n);
    PrefixAmounts(postings, n);
    PostSupply(accounts, postings[..n]);
    SumOverBounds(partial.Keys, partial);
  }

  lemma AcceptedDebitCovered(tx: Payment, l: Ledger)
    requires Sound(l) && Apply(PayOp(tx), l).Ok?
    ensures CoveredDebit(l.accounts, Postings(tx, l.taxes)) && Amounts(Postings(tx, l.taxes)) == 0
  {
    hide CheckPayment, CheckCreate, CheckClose, Admissible, ItemsPostings;
    PaymentAcceptedIff(tx, l);
    PaymentPostings(tx, l);
  }

  /** After any number of the payment's updates, the one balance being read, changed and written back
      included, every balance lies between zero and the money supply. */
  lemma PaymentStepsBounded(tx: Payment, l: Ledger, n: nat, a: AccountID)
    requires Sound(l) && Apply(PayOp(tx), l).Ok? && n <= |Postings(tx, l.taxes)|
    ensures 0 <= BalanceOf(Post(l.accounts, Postings(tx, l.taxes)[..n]), a) <= Supply(l.accounts)
  {
    hide CheckPayment, CheckCreate, CheckClose, Postings;
    AcceptedDebitCovered(tx, l);
    PrefixBounded(l.accounts, Postings(tx, l.taxes), n, a);
  }

  /** Every accepted operation, payment, create or either kind of close, keeps the money supply, and keeps
      balances and rates non-negative. */
  lemma ApplyConserves(op: Op, l: Ledger)
    requires Sound(l) && Apply(op, l).Ok?
    ensures Sound(Apply(op, l).value)
    ensures Supply(Apply(op, l).value.accounts) == Supply(l.accounts)
  {
    match op
    case PayOp(tx) =>
      var postings := Postings(tx, l.taxes);
      AcceptedDebitCovered(tx, l);
      PostSupply(l.accounts, postings);
      PrefixNonNegative(l.accounts, postings, |postings|);
      assert postings[..|postings|] == postings;
    case CreateOp(tx) =>
      var added := l.accounts[tx.account.id := ZERO_ACCOUNT];
      assert Credit(l.accounts, tx.account.id, 0) == added;
      CreditSupply(l.accounts, tx.account.id, 0);
      SumOverSame(added.Keys, added, Created(tx, l).accounts);
      assert added.Keys == Created(tx, l).accounts.Keys;
    case CloseOp(tx) =>
      var account := l.accounts[tx.account];
      if account.kind == Person && 0 < account.balance {
        CreditSupply(l.accounts, CloseDestination(tx), account.balance);
        RemoveSupply(Credit(l.accounts, CloseDestination(tx), account.balance), tx.account);
      } else {
        RemoveSupply(l.accounts, tx.account);
      }
  }

  lemma {:induction false} RunConserves(ops: seq<Op>, l: Ledger)
    requires Sound(l) && Run(ops, l).Ok?
    ensures Sound(Run(ops, l).value)
    ensures Supply(Run(ops, l).value.accounts) == Supply(l.accounts)
  {
    if ops != [] {
      RunConserves(ops[..|ops| - 1], l);
      ApplyConserves(ops[|ops| - 1], Run(ops[..|ops| - 1], l).value);
    }
  }

  lemma {:induction false} RunFrame(ops: seq<Op>, l: Ledger)
    requires Run(ops, l).Ok?
    ensures var after := Run(ops, l).value;
            after.taxes == l.taxes && after.allowed == l.allowed && after.validators == l.validators
  {
    if ops != [] {
      RunFrame(ops[..|ops| - 1], l);
    }
  }
}
