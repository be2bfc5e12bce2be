/** Concrete inputs, each from a configuration the node starts with, for the results that say the code does not keep a
    property. */
module Witnesses {
  import opened Domain
  import opened Crypto
  import opened LedgerRules
  import opened LedgerEffects
  import opened Mempool
  import opened Admission
  import opened ChainRules
  import opened Bootstrap
  import opened Store
  import opened Restart
  import opened Production
  import opened MachineInts
  import opened MachineMoney
  import opened MachineMempool
  import opened Authority
  import S = Solvency

  // ---------------------------------------------------------------------------------------------
  // A configuration
  // ---------------------------------------------------------------------------------------------

  const NOW := Timestamp(1, 0)

  const TAXES: TaxTable := map["c" := TaxSplit(1700, "t1")]

  const ALLOWED: seq<AccountID> := ["t1", "t2", "t3", DEFAULT_DESTINATION]

  const KEY_OF_A := PrivateKey(2)

  const KEY_OF_P := PrivateKey(3)

  const ENTRY_OF_A := KeystoreEntry("a", Encoded(KEY_OF_A, 0))

  const ENTRY_OF_P := KeystoreEntry("p", Encoded(KEY_OF_P, 0))

  // One validator and two accounts.
  function World(x: AccountConfig, y: AccountConfig): Genesis {
    Genesis("c", None, 100, ALLOWED, [ValidatorConfig("v", Encoded(PublicKey(1), 0))], [x, y])
  }

  function Opening(x: AccountConfig, y: AccountConfig): Ledger {
    Ledger(map[x.id := Account(x.id, x.kind, x.balance), y.id := Account(y.id, y.kind, y.balance)], TAXES,
           set id | id in ALLOWED, map["v" := PublicKey(1)], map["a" := PublicKey(2), "p" := PublicKey(3)])
  }

  /** What BuildInitialState makes of the configuration, which it accepts. */
  ghost predicate Starts(genesis: Genesis, keystore: Keystore, l: Ledger) {
    && genesis.validators != [] && TaxesValid(TAXES, genesis.allowedTax)
    && InitialLedger(genesis, keystore, TAXES) == Ok(l)
  }

  lemma WorldStarts(x: AccountConfig, y: AccountConfig)
    ensures Starts(World(x, y), [ENTRY_OF_A, ENTRY_OF_P], Opening(x, y))
    ensures Starts(World(x, y), [ENTRY_OF_P], Opening(x, y).(keys := map["p" := PublicKey(3)]))
  {
    var g := World(x, y);
    assert g.accounts[..1] == [x] && g.accounts[..1][..0] == [] && g.validators[..0] == [];
    assert GenesisAccounts(g.accounts[..1]) == map[x.id := Account(x.id, x.kind, x.balance)];
    assert AddValidators(g.validators[..0], map[]) == Ok(map[]);
    var both, one := [ENTRY_OF_A, ENTRY_OF_P], [ENTRY_OF_P];
    assert both[..1] == [ENTRY_OF_A] && both[..1][..0] == [] && one[..0] == [];
    assert AddKeystore(both[..1], map[]) == Ok(map["a" := PublicKey(2)]);
    assert AddKeystore(one[..0], map[]) == Ok(map[]);
    assert AllowedSet(g) == set id | id in ALLOWED;
    assert "c" in TAXES && TAXES != map[] && "t1" == ALLOWED[0];
  }

  lemma OpeningIsSound(x: AccountConfig, y: AccountConfig)
    requires 0 <= x.balance < TWO_63 && 0 <= y.balance < TWO_63 && x.id != y.id
    ensures Sound64(Opening(x, y)) && Supply(Opening(x, y).accounts) == x.balance + y.balance
  {
    var accounts := Opening(x, y).accounts;
    SumOverPick(accounts.Keys, accounts, x.id);
    SumOverPick(accounts.Keys - {x.id}, accounts, y.id);
    assert accounts.Keys - {x.id} - {y.id} == {};
  }

  // ---------------------------------------------------------------------------------------------
  // Payments of one item
  // ---------------------------------------------------------------------------------------------

  function Pays(id: TxID, payer: AccountID, key: PrivateKey, payee: AccountID, item: LineItem): Payment {
    var unsigned := Payment(id, NOW, Account(payer, Person, 0), Account(payee, Person, 0), [item], NoSignature);
    unsigned.(signature := Sign(key, PaymentBytes(unsigned)))
  }

  lemma PaysIsSigned(id: TxID, payer: AccountID, key: PrivateKey, payee: AccountID, item: LineItem)
    ensures var tx := Pays(id, payer, key, payee, item);
            && tx.id == id && tx.payer.id == payer && tx.payee.id == payee && tx.items == [item]
            && Verify(PublicOf(key), PaymentBytes(tx), tx.signature)
  {
  }

  lemma OneItem(item: LineItem, taxes: TaxTable)
    ensures GrossM([item]) == Wrap(item.amount) && ItemsGross([item]) == item.amount
    ensures ItemsTaxM([item], taxes) == Wrap(CodesTaxM(item.taxCodes, item.amount, taxes))
    ensures ItemsTax([item], taxes) == CodesTax(item.taxCodes, item.amount, taxes)
    ensures ItemsDiscountM([item]) == Wrap(DiscountsM(item.discounts))
    ensures ItemsDiscount([item]) == DiscountsSum(item.discounts)
    ensures ItemsPostingsM([item], taxes)
            == TaxPostingsM(item.taxCodes, item.amount, taxes) + DiscountPostings(item.discounts)
    ensures ItemsPostings([item], taxes) == ItemPostings(item, taxes)
  {
    hide CodesTaxM, CodesTax, DiscountsM, DiscountsSum, TaxPostingsM, DiscountPostings, ItemPostings, Wrap;
    var items := [item];
    assert items[..0] == [];
    assert ItemsPostingsM(items[..0], taxes) == [] && ItemsPostings(items[..0], taxes) == [];
  }

  lemma PaysIsAccepted(id: TxID, payer: AccountID, key: PrivateKey, payee: AccountID, item: LineItem, l: Ledger)
    requires id != "" && payer != "" && payee != "" && ItemAllowed(item, l) && Int64Fields([item])
    requires payer in l.accounts && 0 < GrossM([item]) <= l.accounts[payer].balance
    requires payer in l.keys && l.keys[payer] == PublicOf(key)
    requires 0 <= NetM(Pays(id, payer, key, payee, item), l.taxes)
    ensures CheckPaymentM(Pays(id, payer, key, payee, item), l) == Accepted
  {
    hide ItemAllowed, Int64Fields, GrossM, NetM, Pays, Verify, PaymentBytes, CheckPaymentM;
    PaysIsSigned(id, payer, key, payee, item);
    MachineAcceptedIff(Pays(id, payer, key, payee, item), l);
  }

  // ---------------------------------------------------------------------------------------------
  // A payment that makes money
  // ---------------------------------------------------------------------------------------------

  const LARGEST := TWO_63 - 1

  // One unit, with discounts that add up to 2^64.
  const SPLITTING_ITEM := LineItem("item", 1, [], [Discount("d1", LARGEST, "t1"), Discount("d2", LARGEST, "t2"),
                                                   Discount("d3", 2, "t3")])

  const ONE_OF_A := AccountConfig("a", Person, 1)

  const NONE_OF_P := AccountConfig("p", Person, 0)

  function SplittingPayment(): Payment { Pays("x", "a", KEY_OF_A, "p", SPLITTING_ITEM) }

  // The payer has one unit, and nobody else has anything.
  function SplittingLedger(): Ledger { Opening(ONE_OF_A, NONE_OF_P) }

  lemma SplittingTotals()
    ensures DiscountsM(SPLITTING_ITEM.discounts) == 0
    ensures DiscountPostings(SPLITTING_ITEM.discounts)
            == [Posting("t1", LARGEST), Posting("t2", LARGEST), Posting("t3", 2)]
    ensures DiscountsSum(SPLITTING_ITEM.discounts) == TWO_64
  {
    var d := SPLITTING_ITEM.discounts;
    assert d[..3][..2] == d[..2] && d[..2][..1] == d[..1] && d[..1][..0] == [] && d[..3] == d;
    assert DiscountsM(d[..1]) == LARGEST;
    assert Wrap(LARGEST + LARGEST) == -2;
    assert DiscountsM(d[..2]) == -2;
    assert DiscountsSum(d[..1]) == LARGEST && DiscountsSum(d[..2]) == LARGEST + LARGEST;
    assert DiscountPostings(d[..1]) == [Posting("t1", LARGEST)];
    assert DiscountPostings(d[..2]) == [Posting("t1", LARGEST), Posting("t2", LARGEST)];
  }

  lemma SplittingItems()
    ensures var items := [SPLITTING_ITEM];
            && GrossM(items) == 1 && ItemsGross(items) == 1
            && ItemsTaxM(items, TAXES) == 0 && ItemsTax(items, TAXES) == 0
            && ItemsDiscountM(items) == 0 && ItemsDiscount(items) == TWO_64
            && ItemsPostingsM(items, TAXES) == [Posting("t1", LARGEST), Posting("t2", LARGEST), Posting("t3", 2)]
  {
    hide DiscountsM, DiscountsSum, DiscountPostings;
    SplittingTotals();
    OneItem(SPLITTING_ITEM, TAXES);
  }

  lemma SplittingAccepted()
    ensures CheckPaymentM(SplittingPayment(), SplittingLedger()) == Accepted
    ensures Apply(PayOp(SplittingPayment()), SplittingLedger()).Err?
  {
    hide CheckPaymentM, CheckPayment, GrossM, ItemsTaxM, ItemsDiscountM, ItemsGross, ItemsTax, ItemsDiscount, Pays,
      Verify;
    PaysIsSigned("x", "a", KEY_OF_A, "p", SPLITTING_ITEM);
    SplittingItems();
    assert NetM(SplittingPayment(), TAXES) == 1;
    PaysIsAccepted("x", "a", KEY_OF_A, "p", SPLITTING_ITEM, SplittingLedger());
    PaymentAcceptedIff(SplittingPayment(), SplittingLedger());
  }

  lemma SplittingPostings()
    ensures PostingsM(SplittingPayment(), TAXES)
            == [Posting("a", -1), Posting("p", 1), Posting("t1", LARGEST), Posting("t2", LARGEST), Posting("t3", 2)]
  {
    hide GrossM, ItemsTaxM, ItemsDiscountM, ItemsPostingsM, Pays;
    PaysIsSigned("x", "a", KEY_OF_A, "p", SPLITTING_ITEM);
    SplittingItems();
    assert NetM(SplittingPayment(), TAXES) == 1;
  }

  lemma SplittingAmounts(p: seq<Posting>)
    requires p == [Posting("t1", LARGEST), Posting("t2", LARGEST), Posting("t3", 2)]
    ensures Amounts(p) == TWO_64
  {
    assert p[..2][..1] == p[..1] && p[..1][..0] == [];
    assert Amounts(p[..1]) == LARGEST;
    assert Amounts(p[..2]) == LARGEST + LARGEST;
  }

  lemma SplittingPrefixes(accounts: Accounts, p: seq<Posting>)
    requires accounts == SplittingLedger().accounts
    requires p == [Posting("a", -1), Posting("p", 1), Posting("t1", LARGEST), Posting("t2", LARGEST), Posting("t3", 2)]
    ensures PostM(accounts, p) == Post(accounts, p)
  {
    assert p[..4][..3] == p[..3] && p[..3][..2] == p[..2] && p[..2][..1] == p[..1] && p[..1][..0] == [];
    assert PostM(accounts, p[..0]) == Post(accounts, p[..0]) == accounts;
    assert PostM(accounts, p[..1]) == Post(accounts, p[..1]) == Credit(accounts, "a", -1);
    assert PostM(accounts, p[..2]) == Post(accounts, p[..2]) == Credit(Post(accounts, p[..1]), "p", 1);
    assert PostM(accounts, p[..3]) == Post(accounts, p[..3]) == Credit(Post(accounts, p[..2]), "t1", LARGEST);
    assert PostM(accounts, p[..4]) == Post(accounts, p[..4]) == Credit(Post(accounts, p[..3]), "t2", LARGEST);
  }

  lemma SplittingPosts()
    ensures Supply(PostM(SplittingLedger().accounts, PostingsM(SplittingPayment(), TAXES))) == 1 + TWO_64
  {
    hide Post, PostM, Supply, Amounts, PostingsM;
    var accounts, p := SplittingLedger().accounts, PostingsM(SplittingPayment(), TAXES);
    SplittingPostings();
    SplittingPrefixes(accounts, p);
    PostSupply(accounts, p);
    TransferAmounts(p[0], p[1], p[2..]);
    assert p == [p[0], p[1]] + p[2..];
    SplittingAmounts(p[2..]);
    OpeningIsSound(ONE_OF_A, NONE_OF_P);
  }

  lemma AcceptedIsApplied(tx: Payment, l: Ledger)
    requires CheckPaymentM(tx, l) == Accepted
    ensures ApplyM(PayOp(tx), l) == Ok(l.(accounts := PostM(l.accounts, PostingsM(tx, l.taxes))))
  {
  }

  lemma MadeMoneyIsNotKept(tx: Payment, l: Ledger)
    requires Supply(PostM(l.accounts, PostingsM(tx, l.taxes))) != Supply(l.accounts)
    ensures !KeepsMoney(tx, l)
  {
  }

  /** Money is not kept by every payment the ledger accepts: here is one that raises the supply by 2^64, on a node that
      starts. The rules on unbounded integers reject it, which is why they are silent about it. */
  lemma SplittingPaymentMakesMoney()
    ensures var tx, l := SplittingPayment(), SplittingLedger();
            && Starts(World(ONE_OF_A, NONE_OF_P), [ENTRY_OF_A, ENTRY_OF_P], l)
            && Sound64(l) && Supply(l.accounts) == 1
            && InputFits(tx, l.taxes)
            && Apply(PayOp(tx), l).Err? && ApplyM(PayOp(tx), l).Ok?
            && Supply(ApplyM(PayOp(tx), l).value.accounts) == Supply(l.accounts) + TWO_64
            && !KeepsMoney(tx, l)
  {
    hide KeepsMoney, PostingsM, PostM, CheckPayment, CheckPaymentM, Supply, Sound64, Starts;
    var tx, l := SplittingPayment(), SplittingLedger();
    WorldStarts(ONE_OF_A, NONE_OF_P);
    OpeningIsSound(ONE_OF_A, NONE_OF_P);
    SplittingAccepted();
    SplittingPosts();
    AcceptedIsApplied(tx, l);
    MadeMoneyIsNotKept(tx, l);
  }

  // ---------------------------------------------------------------------------------------------
  // A balance that overflows
  // ---------------------------------------------------------------------------------------------

  const PLAIN_ITEM := LineItem("item", 1, [], [])

  lemma PlainItem()
    ensures var items := [PLAIN_ITEM];
            && GrossM(items) == 1 && ItemsGross(items) == 1
            && ItemsTaxM(items, TAXES) == 0 && ItemsTax(items, TAXES) == 0
            && ItemsDiscountM(items) == 0 && ItemsDiscount(items) == 0
            && ItemsPostingsM(items, TAXES) == [] && ItemsPostings(items, TAXES) == []
  {
    OneItem(PLAIN_ITEM, TAXES);
  }

  lemma PlainApplies(id: TxID, payer: AccountID, key: PrivateKey, payee: AccountID, l: Ledger, a: AccountID)
    requires id != "" && payer != "" && payee != "" && l.taxes == TAXES && payer in l.accounts
    requires 1 <= l.accounts[payer].balance && payer in l.keys && l.keys[payer] == PublicOf(key)
    requires Int64(BalanceOf(l.accounts, a))
    ensures var tx := Pays(id, payer, key, payee, PLAIN_ITEM);
            && CheckPaymentM(tx, l) == Accepted && Splits(tx, TAXES) == 0 && SplitsCredit(tx, TAXES)
            && InputFits(tx, TAXES) && TotalsFit(tx, TAXES)
            && BalanceOf(ApplyM(PayOp(tx), l).value.accounts, a)
               == Wrap(BalanceOf(l.accounts, a) - (if a == payer then 1 else 0) + (if a == payee then 1 else 0))
  {
    hide CheckPaymentM, GrossM, ItemsTaxM, ItemsDiscountM, ItemsGross, ItemsTax, ItemsDiscount, Pays, Verify, Wrap,
      PostM, ItemsPostingsM;
    var tx := Pays(id, payer, key, payee, PLAIN_ITEM);
    PaysIsSigned(id, payer, key, payee, PLAIN_ITEM);
    PlainItem();
    PlainNet(tx);
    PaysIsAccepted(id, payer, key, payee, PLAIN_ITEM, l);
    AcceptedIsApplied(tx, l);
    MachinePaymentEffect(tx, l, a);
  }

  lemma PlainNet(tx: Payment)
    requires tx.items == [PLAIN_ITEM]
    ensures NetM(tx, TAXES) == 1
  {
    hide GrossM, ItemsTaxM, ItemsDiscountM;
    PlainItem();
  }

  const FULL_A := AccountConfig("a", Person, LARGEST)

  const FULL_P := AccountConfig("p", Person, LARGEST)

  lemma KeptIsNonNegative(tx: Payment, l: Ledger, a: AccountID)
    requires KeepsMoney(tx, l)
    ensures 0 <= BalanceOf(PostM(l.accounts, PostingsM(tx, l.taxes)), a)
  {
    var postings := PostingsM(tx, l.taxes);
    assert postings[..|postings|] == postings;
    assert WithinAt(l.accounts, postings, |postings|, Supply(l.accounts));
  }

  /** Nothing bounds genesis balances: between two full accounts, one unit without taxes overflows the payee, who loses
      everything without having signed. */
  lemma FullPayeeOverflows()
    ensures var tx, l := Pays("x", "a", KEY_OF_A, "p", PLAIN_ITEM), Opening(FULL_A, FULL_P);
            && Starts(World(FULL_A, FULL_P), [ENTRY_OF_A, ENTRY_OF_P], l)
            && Sound64(l) && InputFits(tx, l.taxes) && SplitsCredit(tx, l.taxes)
            && ApplyM(PayOp(tx), l).Ok? && Splits(tx, l.taxes) == 0
            && BalanceOf(ApplyM(PayOp(tx), l).value.accounts, "p") == -TWO_63
            && !KeepsMoney(tx, l) && !Authorises(PayOp(tx), l, "p")
  {
    hide KeepsMoney, PostingsM, PostM, CheckPaymentM, Supply, Sound64, Starts, Pays, SplitsCredit, Splits, InputFits;
    var tx, l := Pays("x", "a", KEY_OF_A, "p", PLAIN_ITEM), Opening(FULL_A, FULL_P);
    WorldStarts(FULL_A, FULL_P);
    OpeningIsSound(FULL_A, FULL_P);
    PaysIsSigned("x", "a", KEY_OF_A, "p", PLAIN_ITEM);
    PlainApplies("x", "a", KEY_OF_A, "p", l, "p");
    AcceptedIsApplied(tx, l);
    if KeepsMoney(tx, l) {
      KeptIsNonNegative(tx, l, "p");
    }
  }

  // ---------------------------------------------------------------------------------------------
  // A tax that becomes negative
  // ---------------------------------------------------------------------------------------------

  const LARGE_AMOUNT := 5425512962855751

  const LARGE_ITEM := LineItem("item", LARGE_AMOUNT, ["c"], [])

  const NEGATIVE_TAX := -922337203685477

  const LARGE_A := AccountConfig("a", Person, LARGE_AMOUNT)

  lemma LargeTax()
    ensures TaxM(1700, LARGE_AMOUNT) == NEGATIVE_TAX && !Int64(1700 * LARGE_AMOUNT)
  {
    var turns := WrapsApart(1700 * LARGE_AMOUNT);
    assert turns == 1;
  }

  lemma LargeCodes()
    ensures CodesTaxM(["c"], LARGE_AMOUNT, TAXES) == NEGATIVE_TAX
    ensures TaxPostingsM(["c"], LARGE_AMOUNT, TAXES) == [Posting("t1", NEGATIVE_TAX)]
  {
    hide TaxM;
    var codes := ["c"];
    LargeTax();
    assert codes[..0] == [];
    assert TaxPostingsM(codes[..0], LARGE_AMOUNT, TAXES) == [];
  }

  lemma LargeItem()
    ensures var items := [LARGE_ITEM];
            && GrossM(items) == LARGE_AMOUNT && ItemsTaxM(items, TAXES) == NEGATIVE_TAX && ItemsDiscountM(items) == 0
            && ItemsPostingsM(items, TAXES) == [Posting("t1", NEGATIVE_TAX)]
  {
    hide CodesTaxM, TaxPostingsM;
    LargeCodes();
    OneItem(LARGE_ITEM, TAXES);
  }

  lemma LargeNet(tx: Payment)
    requires tx.items == [LARGE_ITEM]
    ensures NetM(tx, TAXES) == LARGE_AMOUNT - NEGATIVE_TAX && Splits(tx, TAXES) == NEGATIVE_TAX
  {
    hide GrossM, ItemsTaxM, ItemsDiscountM, ItemsPostingsM;
    LargeItem();
    AmountsOne(Posting("t1", NEGATIVE_TAX));
  }

  /** At the shipped rate of 17% an amount can be so large that its product wraps and the tax becomes negative: the
      payment is accepted, its splits are far below 2^63, and the treasury owes. */
  lemma NegativeTaxIsTaken()
    ensures var tx, l := Pays("x", "a", KEY_OF_A, "p", LARGE_ITEM), Opening(LARGE_A, NONE_OF_P);
            && Starts(World(LARGE_A, NONE_OF_P), [ENTRY_OF_A, ENTRY_OF_P], l)
            && Sound64(l) && Supply(l.accounts) < TWO_63 && Int64Fields(tx.items)
            && ApplyM(PayOp(tx), l).Ok? && Splits(tx, l.taxes) < TWO_63 && !SplitsCredit(tx, l.taxes)
            && BalanceOf(ApplyM(PayOp(tx), l).value.accounts, "t1") == NEGATIVE_TAX
            && !KeepsMoney(tx, l)
  {
    hide KeepsMoney, PostingsM, PostM, CheckPaymentM, Supply, Sound64, Starts, Pays, GrossM, ItemsPostingsM, NetM,
      Splits, ItemsTaxM, ItemsDiscountM;
    var tx, l := Pays("x", "a", KEY_OF_A, "p", LARGE_ITEM), Opening(LARGE_A, NONE_OF_P);
    WorldStarts(LARGE_A, NONE_OF_P);
    OpeningIsSound(LARGE_A, NONE_OF_P);
    PaysIsSigned("x", "a", KEY_OF_A, "p", LARGE_ITEM);
    LargeItem();
    LargeNet(tx);
    PaysIsAccepted("x", "a", KEY_OF_A, "p", LARGE_ITEM, l);
    AcceptedIsApplied(tx, l);
    MachinePaymentEffect(tx, l, "t1");
    PostedToOne(Posting("t1", NEGATIVE_TAX), "t1");
    if KeepsMoney(tx, l) {
      KeptIsNonNegative(tx, l, "t1");
    }
  }

  // ---------------------------------------------------------------------------------------------
  // An admitted payment that is dropped
  // ---------------------------------------------------------------------------------------------

  const HALF := 0x4000_0000_0000_0000

  const HALF_OF_P := AccountConfig("p", Person, HALF)

  // One unit with discounts that wrap to a net of 2^62.
  const OVERFLOWING_ITEM := LineItem("item", 1, [], [Discount("d1", LARGEST, "t1"), Discount("d2", HALF + 2, "t2")])

  function Overflowing(): Payment { Pays("q", "a", KEY_OF_A, "p", OVERFLOWING_ITEM) }

  function Small(): Payment { Pays("x", "p", KEY_OF_P, "b", PLAIN_ITEM) }

  function Rich(): Ledger { Opening(ONE_OF_A, HALF_OF_P) }

  lemma OverflowingTotals()
    ensures DiscountsM(OVERFLOWING_ITEM.discounts) == 1 - HALF
    ensures DiscountPostings(OVERFLOWING_ITEM.discounts) == [Posting("t1", LARGEST), Posting("t2", HALF + 2)]
  {
    var d := OVERFLOWING_ITEM.discounts;
    assert d[..2] == d && d[..2][..1] == d[..1] && d[..1][..0] == [];
    assert DiscountsM(d[..1]) == LARGEST;
    assert DiscountPostings(d[..1]) == [Posting("t1", LARGEST)];
    assert Wrap(LARGEST + HALF + 2) == 1 - HALF;
  }

  lemma OverflowingItems()
    ensures var items := [OVERFLOWING_ITEM];
            && GrossM(items) == 1 && ItemsTaxM(items, TAXES) == 0 && ItemsDiscountM(items) == 1 - HALF
            && ItemsPostingsM(items, TAXES) == [Posting("t1", LARGEST), Posting("t2", HALF + 2)]
  {
    hide DiscountsM, DiscountPostings;
    OverflowingTotals();
    OneItem(OVERFLOWING_ITEM, TAXES);
  }

  lemma OverflowingNet()
    ensures NetM(Overflowing(), TAXES) == HALF
    ensures PostedTo(ItemsPostingsM(Overflowing().items, TAXES), "p") == 0
  {
    hide GrossM, ItemsTaxM, ItemsDiscountM, ItemsPostingsM;
    OverflowingItems();
    var p := [Posting("t1", LARGEST), Posting("t2", HALF + 2)];
    assert p[..2][..1] == p[..1] && p[..1][..0] == [];
    assert PostedTo(p[..1], "p") == 0;
  }

  lemma OverflowingApplies()
    ensures CheckPaymentM(Overflowing(), Rich()) == Accepted && ApplyM(PayOp(Overflowing()), Rich()).Ok?
    ensures var after := ApplyM(PayOp(Overflowing()), Rich()).value;
            && BalanceOf(after.accounts, "p") == -TWO_63 && "p" in after.accounts
            && after.taxes == TAXES && after.keys == Rich().keys
  {
    hide CheckPaymentM, GrossM, NetM, ItemsPostingsM, Pays, Verify, PostM, PostedTo;
    PaysIsSigned("q", "a", KEY_OF_A, "p", OVERFLOWING_ITEM);
    OverflowingItems();
    OverflowingNet();
    PaysIsAccepted("q", "a", KEY_OF_A, "p", OVERFLOWING_ITEM, Rich());
    AcceptedIsApplied(Overflowing(), Rich());
    MachinePaymentEffect(Overflowing(), Rich(), "p");
    assert Wrap(TWO_63) == -TWO_63;
  }

  lemma SmallIsRefused(after: Ledger)
    requires BalanceOf(after.accounts, "p") < 0
    ensures CheckPaymentM(Small(), after) != Accepted
  {
    hide CheckPaymentM, GrossM, Pays, Verify;
    PaysIsSigned("x", "p", KEY_OF_P, "b", PLAIN_ITEM);
    PlainItem();
    MachineAcceptedIff(Small(), after);
  }

  lemma OverflowingAdmitted()
    ensures CheckAdmitM(Overflowing(), Rich(), 0) == Accepted
  {
    hide CheckAdmitM, CheckPaymentM, GrossM, NetM, Pays, Verify, PaymentBytes, ItemAllowed, ApplyM;
    PaysIsSigned("q", "a", KEY_OF_A, "p", OVERFLOWING_ITEM);
    OverflowingApplies();
    MachineAcceptedIff(Overflowing(), Rich());
    AdmittedMIff(Overflowing(), Rich(), 0);
  }

  lemma SmallAdmitted()
    ensures CheckAdmitM(Small(), Rich(), 0) == Accepted
  {
    hide CheckAdmitM, CheckPaymentM, GrossM, NetM, Pays, Verify, PaymentBytes, ItemAllowed, ApplyM;
    PaysIsSigned("x", "p", KEY_OF_P, "b", PLAIN_ITEM);
    PlainApplies("x", "p", KEY_OF_P, "b", Rich(), "p");
    MachineAcceptedIff(Small(), Rich());
    AdmittedMIff(Small(), Rich(), 0);
  }

  lemma BothAdmitted()
    ensures CheckAdmitM(Overflowing(), Rich(), PendingGrossM([], "a")) == Accepted
    ensures CheckAdmitM(Small(), Rich(), PendingGrossM([Overflowing()], "p")) == Accepted
  {
    hide CheckAdmitM, GrossM, Pays, Rich;
    PaysIsSigned("q", "a", KEY_OF_A, "p", OVERFLOWING_ITEM);
    OverflowingAdmitted();
    SmallAdmitted();
    var pending := [Overflowing()];
    assert pending[..0] == [];
  }

  lemma RefusedOnReplay()
    ensures ApplyM(PayOp(Overflowing()), Rich()).Ok?
    ensures ReplayedM([Overflowing()], Rich()) == ApplyM(PayOp(Overflowing()), Rich()).value
    ensures CheckPendingWithM(Small(), [Overflowing()], Rich()) != Accepted
  {
    hide CheckPaymentM, PostM, PostingsM, Overflowing, Small, Rich;
    var pending := [Overflowing()];
    assert pending[..0] == [];
    OverflowingApplies();
    AcceptedIsApplied(Overflowing(), Rich());
    SmallIsRefused(ApplyM(PayOp(Overflowing()), Rich()).value);
  }

  lemma RichIsSmall()
    ensures Starts(World(ONE_OF_A, HALF_OF_P), [ENTRY_OF_A, ENTRY_OF_P], Rich()) && SmallSupply(Rich())
  {
    hide Starts, Supply;
    WorldStarts(ONE_OF_A, HALF_OF_P);
    OpeningIsSound(ONE_OF_A, HALF_OF_P);
  }

  /** A payment whose discounts wrap makes the fast check admit what the replaying check refuses: the small payment of
      its payee, whose balance it pushes below zero. Products are in range and every gross is positive. */
  lemma FastAdmitsWhatReplayRefuses()
    ensures Starts(World(ONE_OF_A, HALF_OF_P), [ENTRY_OF_A, ENTRY_OF_P], Rich()) && SmallSupply(Rich())
    ensures InputFits(Overflowing(), TAXES) && PaymentFits(Small(), TAXES) && !TotalsFit(Overflowing(), TAXES)
    ensures CheckAdmitM(Overflowing(), Rich(), PendingGrossM([], "a")) == Accepted
    ensures CheckAdmitM(Small(), Rich(), PendingGrossM([Overflowing()], "p")) == Accepted
    ensures CheckPendingWithM(Small(), [Overflowing()], Rich()) != Accepted
  {
    hide CheckAdmitM, CheckPendingWithM, CheckPaymentM, Starts, SmallSupply;
    RichIsSmall();
    BothAdmitted();
    RefusedOnReplay();
    OverflowingDoesNotFit();
    PlainApplies("x", "p", KEY_OF_P, "b", Rich(), "p");
  }

  lemma OverflowingDoesNotFit()
    ensures InputFits(Overflowing(), TAXES) && !TotalsFit(Overflowing(), TAXES)
  {
    var d := OVERFLOWING_ITEM.discounts;
    OneItem(OVERFLOWING_ITEM, TAXES);
    assert d[..2] == d && d[..2][..1] == d[..1] && d[..1][..0] == [];
    assert DiscountsSum(d[..1]) == LARGEST;
  }

  // Admit both, begin, peek, pick the first, drop the second.
  function DroppingRun(): seq<S.Node> {
    var q, p, l, m := Overflowing(), Small(), Rich(), ReplayedM([Overflowing()], Rich());
    [S.Node(l, [], S.Idle), S.Node(l, [q], S.Idle), S.Node(l, [q, p], S.Idle), S.Node(l, [q, p], S.Started(l, [])),
     S.Node(l, [q, p], S.Selecting(l, [], [q, p], 0, [], [])),
     S.Node(l, [q, p], S.Selecting(m, [], [q, p], 1, [q], [])),
     S.Node(l, [q, p], S.Selecting(m, [], [q, p], 2, [q], [p]))]
  }

  lemma DroppingRunAdmits(run: seq<S.Node>)
    requires run == DroppingRun()
    ensures AdmitM(run[0], run[1], Overflowing()) && AdmitM(run[1], run[2], Small())
    ensures BeginM(run[2], run[3], []) && S.Peek(run[3], run[4])
  {
    hide CheckAdmitM, Pays, Rich, ReplayedM, RunM, PendingGrossM;
    PaysIsSigned("q", "a", KEY_OF_A, "p", OVERFLOWING_ITEM);
    PaysIsSigned("x", "p", KEY_OF_P, "b", PLAIN_ITEM);
    BothAdmitted();
    NoCreatesRunM(Rich());
    assert run[1].pending == [] + [Overflowing()] && run[2].pending == [Overflowing()] + [Small()];
  }

  lemma NoCreatesRunM(l: Ledger)
    ensures RunM(CreateOps([]), l) == Ok(l)
  {
  }

  lemma DroppingRunPicks(run: seq<S.Node>)
    requires run == DroppingRun()
    ensures PickM(run[4], run[5], 100) && DropM(run[5], run[6], 100)
  {
    hide CheckPaymentM, CheckPendingWithM, Overflowing, Small, Rich, ReplayedM, PostM, PostingsM;
    OverflowingApplies();
    AcceptedIsApplied(Overflowing(), Rich());
    RefusedOnReplay();
    SmallIsRefused(ReplayedM([Overflowing()], Rich()));
    var q, p: seq<Payment> := [Overflowing()], [Small()];
    assert [] + q == q && [] + p == p;
  }

  /** So selection drops an admitted payment, in a run of a node that starts with a supply below 2^63. */
  lemma AdmittedPaymentIsDropped()
    ensures Starts(World(ONE_OF_A, HALF_OF_P), [ENTRY_OF_A, ENTRY_OF_P], Rich()) && SmallSupply(Rich())
    ensures DroppingRun()[0].ledger == Rich() && IsRunM(DroppingRun(), 100)
            && DropM(DroppingRun()[5], DroppingRun()[6], 100)
  {
    hide Starts, Supply, Sound, AdmitM, BeginM, S.Peek, PickM, DropM, Overflowing, Small, Rich, ReplayedM;
    var run := DroppingRun();
    RichIsSmall();
    DroppingRunAdmits(run);
    DroppingRunPicks(run);
    assert StepM(run[0], run[1], 100) && StepM(run[1], run[2], 100) && StepM(run[2], run[3], 100);
    assert StepM(run[3], run[4], 100) && StepM(run[4], run[5], 100) && StepM(run[5], run[6], 100);
    forall i | 0 <= i < |run| - 1 ensures StepMAt(run, i, 100) {
      assert i == 0 || i == 1 || i == 2 || i == 3 || i == 4 || i == 5;
    }
  }

  // ---------------------------------------------------------------------------------------------
  // A payment between append and release
  // ---------------------------------------------------------------------------------------------

  function OnePayment(): Payment { Pays("x", "a", KEY_OF_A, "p", PLAIN_ITEM) }

  function Before(): Ledger { Opening(ONE_OF_A, NONE_OF_P) }

  function After(): Ledger { Paid(OnePayment(), Before()) }

  lemma BeforeIsSmall()
    ensures Starts(World(ONE_OF_A, NONE_OF_P), [ENTRY_OF_A, ENTRY_OF_P], Before()) && SmallSupply(Before())
  {
    hide Starts, Supply;
    WorldStarts(ONE_OF_A, NONE_OF_P);
    OpeningIsSound(ONE_OF_A, NONE_OF_P);
  }

  lemma OnePaymentApplies()
    ensures Apply(PayOp(OnePayment()), Before()) == Ok(After())
    ensures BalanceOf(After().accounts, "a") == 0
  {
    hide CheckPaymentM, ApplyM, Pays, TotalsFit, InputFits, SmallSupply, Splits, SplitsCredit, Post, Supply;
    PaysIsSigned("x", "a", KEY_OF_A, "p", PLAIN_ITEM);
    BeforeIsSmall();
    PlainApplies("x", "a", KEY_OF_A, "p", Before(), "a");
    AcceptedApplies(OnePayment(), Before());
    PaymentIsExactIff(OnePayment(), Before());
    AppliedIsPaid(OnePayment(), Before());
    assert Wrap(0) == 0;
  }

  lemma AppliedIsPaid(tx: Payment, l: Ledger)
    requires Apply(PayOp(tx), l).Ok?
    ensures Apply(PayOp(tx), l) == Ok(Paid(tx, l))
  {
  }

  lemma OnePaymentAdmitted()
    ensures CheckAdmit(OnePayment(), Before(), 0) == Accepted
    ensures PendingGross([], "a") == 0 && PendingGross([OnePayment()], "a") == 1
  {
    hide CheckAdmit, CheckPayment, Verify, ItemsGross, Pays, Admissible, After;
    PaysIsSigned("x", "a", KEY_OF_A, "p", PLAIN_ITEM);
    PlainItem();
    OnePaymentApplies();
    PaymentAcceptedIff(OnePayment(), Before());
    AdmittedIff(OnePayment(), Before(), 0);
    PendingGrossOne(OnePayment(), "a");
  }

  // Admit, begin, peek, pick, seal, append.
  function AppendRun(): seq<S.Node> {
    var tx, l := OnePayment(), Before();
    [S.Node(l, [], S.Idle), S.Node(l, [tx], S.Idle), S.Node(l, [tx], S.Started(l, [])),
     S.Node(l, [tx], S.Selecting(l, [], [tx], 0, [], [])), S.Node(l, [tx], S.Selecting(After(), [], [tx], 1, [tx], [])),
     S.Node(l, [tx], S.Sealed([], [tx])), S.Node(After(), [tx], S.Appended([tx]))]
  }

  lemma AppendRunSelects(run: seq<S.Node>)
    requires run == AppendRun()
    ensures S.Admit(run[0], run[1], OnePayment()) && S.Begin(run[1], run[2], [])
    ensures S.Peek(run[2], run[3]) && S.Pick(run[3], run[4], 100)
  {
    hide CheckAdmit, Apply, Before, After, Run;
    OnePaymentAdmitted();
    OnePaymentApplies();
    NoCreatesRun(Before());
    PaysIsSigned("x", "a", KEY_OF_A, "p", PLAIN_ITEM);
  }

  lemma NoCreatesRun(l: Ledger)
    ensures Run(CreateOps([]), l) == Ok(l)
  {
  }

  lemma AppendRunAppends(run: seq<S.Node>)
    requires run == AppendRun()
    ensures S.Seal(run[4], run[5], 100) && S.Append(run[5], run[6])
  {
    hide Apply, Before, After;
    OnePaymentApplies();
    WithoutNone([OnePayment()], S.Ids([]), PaymentId);
    assert S.BlockBody([], [OnePayment()]) == [PayOp(OnePayment())];
    RunOne(PayOp(OnePayment()), Before());
  }

  /** A run of seven states, from a start, that ends between append and release, where the payer has one unit reserved
      and none left. */
  lemma ReservationExceedsBalance()
    ensures Starts(World(ONE_OF_A, NONE_OF_P), [ENTRY_OF_A, ENTRY_OF_P], AppendRun()[0].ledger)
    ensures S.IsRun(AppendRun(), 100)
    ensures var last := AppendRun()[6];
            BalanceOf(last.ledger.accounts, "a") == 0 && PendingGross(last.pending, "a") == 1
  {
    hide Starts, S.Admit, S.Begin, S.Peek, S.Pick, S.Seal, S.Append, Before, After, Sound, PendingGross, BalanceOf,
      Supply, OnePayment;
    var run := AppendRun();
    BeforeIsSmall();
    OnePaymentApplies();
    OnePaymentAdmitted();
    AppendRunSelects(run);
    AppendRunAppends(run);
    assert S.Step(run[0], run[1], 100) && S.Step(run[1], run[2], 100) && S.Step(run[2], run[3], 100);
    assert S.Step(run[3], run[4], 100) && S.Step(run[4], run[5], 100) && S.Step(run[5], run[6], 100);
    forall i | 0 <= i < |run| - 1 ensures S.Step(run[i], run[i + 1], 100) {
      assert i == 0 || i == 1 || i == 2 || i == 3 || i == 4 || i == 5;
    }
  }

  // ---------------------------------------------------------------------------------------------
  // A closed genesis account
  // ---------------------------------------------------------------------------------------------

  const FIVE_OF_A := AccountConfig("a", Person, 5)

  const TREASURY := AccountConfig(DEFAULT_DESTINATION, Treasury, 0)

  function ClosingGenesis(): Genesis { World(FIVE_OF_A, TREASURY) }

  function FirstLedger(): Ledger { Opening(FIVE_OF_A, TREASURY) }

  function CloseOfA(): AccountClose {
    var unsigned := AccountClose("x", NOW, "a", Encoded(PublicKey(2), 0), "", NoSignature);
    unsigned.(signature := Sign(PrivateKey(1), CloseBytes(unsigned)))
  }

  function ClosingBlock(): Block {
    SealedBlock(1, GenesisBlock(ClosingGenesis()), [], [], [CloseOfA()], "v", PrivateKey(1), NOW)
  }

  function ClosingChain(): seq<Block> { [GenesisBlock(ClosingGenesis()), ClosingBlock()] }

  function ClosingDisk(): Disk { Disk(Prefix(ClosingChain()), Some(Project(Closed(CloseOfA(), FirstLedger())))) }

  lemma CloseIsAccepted()
    ensures Apply(CloseOp(CloseOfA()), FirstLedger()) == Ok(Closed(CloseOfA(), FirstLedger()))
  {
    assert "v" in FirstLedger().validators;
  }

  lemma ClosingChainReplays()
    ensures Replay(ClosingChain(), FirstLedger()) == Ok(Closed(CloseOfA(), FirstLedger()))
    ensures ChainOps(ClosingChain()) == [CloseOp(CloseOfA())]
  {
    var g, b, l := GenesisBlock(ClosingGenesis()), ClosingBlock(), FirstLedger();
    hide CheckClose, Closed, CheckHeader;
    assert ClosingChain()[..1] == [g];
    assert BlockOps(b) == [CloseOp(CloseOfA())];
    SealedHeaderIff(1, g, [], [], [CloseOfA()], "v", PrivateKey(1), NOW, l);
    CloseIsAccepted();
    RunOne(CloseOp(CloseOfA()), l);
  }

  lemma CloseNames()
    ensures CloseOfA().account == "a"
  {
  }

  lemma SameKeysSuffice(ops: seq<Op>, k: KeyTable)
    ensures KeysSuffice(ops, k, k)
  {
  }

  /** A node that started, closed its genesis account "a" and, as the API does, took its entry out of the keystore: the
      store is in order, with the entry the node starts, without it it does not. */
  lemma ClosingGenesisAccountStopsNode()
    ensures Starts(ClosingGenesis(), [ENTRY_OF_A, ENTRY_OF_P], FirstLedger())
    ensures Starts(ClosingGenesis(), [ENTRY_OF_P], FirstLedger().(keys := map["p" := PublicKey(3)]))
    ensures Durable(ClosingDisk(), ClosingChain(), ClosingGenesis(), FirstLedger())
    ensures Boot(ClosingChain(), ClosingDisk().state, FirstLedger(), ClosingGenesis(), [ENTRY_OF_A, ENTRY_OF_P]).Ok?
    ensures Boot(ClosingChain(), ClosingDisk().state, FirstLedger().(keys := map["p" := PublicKey(3)]),
                 ClosingGenesis(), [ENTRY_OF_P]).Err?
  {
    hide Boot, InitialLedger, Replay, Closed, CloseOfA, KeysSuffice, Apply, TaxesValid, Opening;
    var d, chain, ops := ClosingDisk(), ClosingChain(), ChainOps(ClosingChain());
    WorldStarts(FIVE_OF_A, TREASURY);
    ClosingChainReplays();
    assert Durable(d, chain, ClosingGenesis(), FirstLedger());
    RestartAcceptsIff(d, chain, ClosingGenesis(), [ENTRY_OF_A, ENTRY_OF_P], [ENTRY_OF_A, ENTRY_OF_P], TAXES);
    SameKeysSuffice(ops, FirstLedger().keys);
    assert ops[..0] == [] && Touched(ops[..0]) == {};
    CloseNames();
    RemovingClosedAccountBreaksRestart(d, chain, ClosingGenesis(), [ENTRY_OF_A, ENTRY_OF_P], [ENTRY_OF_P], TAXES, 0);
  }
}
