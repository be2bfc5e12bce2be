/** What a signature authorises: exactly one content. And without the owner's or a validator's no account loses
    money. */
module Authority {
  import opened Domain
  import opened Crypto
  import opened LedgerRules
  import opened LedgerEffects
  import opened Admission
  import opened MachineInts
  import opened MachineMoney

  // ---------------------------------------------------------------------------------------------
  // What is signed
  // ---------------------------------------------------------------------------------------------

  /** Equal up to signature and fraction of a second, field by field. */
  predicate SamePaymentFields(a: Payment, b: Payment) {
    && a.id == b.id && a.timestamp.second == b.timestamp.second
    && a.payer == b.payer && a.payee == b.payee && a.items == b.items
  }

  predicate SameCreateFields(a: AccountCreate, b: AccountCreate) {
    && a.id == b.id && a.timestamp.second == b.timestamp.second
    && a.account == b.account && a.publicKey == b.publicKey
  }

  predicate SameCloseFields(a: AccountClose, b: AccountClose) {
    && a.id == b.id && a.timestamp.second == b.timestamp.second
    && a.account == b.account && a.publicKey == b.publicKey && a.destination == b.destination
  }

  /** The bytes that are signed commit to every field but the signature and the fraction of a second, and the bytes of
      different kinds of operation, or of an operation and a block, are never equal. */
  lemma SignBytesCommit(p: Payment, q: Payment, c: AccountCreate, d: AccountCreate, x: AccountClose, y: AccountClose,
                        b: Block)
    ensures PaymentBytes(p) == PaymentBytes(q) <==> SamePaymentFields(p, q)
    ensures CreateBytes(c) == CreateBytes(d) <==> SameCreateFields(c, d)
    ensures CloseBytes(x) == CloseBytes(y) <==> SameCloseFields(x, y)
    ensures SamePayment(p, q) <==> SamePaymentFields(p, q)
    ensures SameCreate(c, d) <==> SameCreateFields(c, d)
    ensures SameClose(x, y) <==> SameCloseFields(x, y)
    ensures |{PaymentBytes(p), CreateBytes(c), CloseBytes(x), BlockBytes(b)}| == 4
  {
    assert |{PaymentBytes(p)} + {CreateBytes(c)}| == 2;
    assert |{PaymentBytes(p), CreateBytes(c)} + {CloseBytes(x)}| == 3;
    assert {PaymentBytes(p), CreateBytes(c), CloseBytes(x), BlockBytes(b)}
           == {PaymentBytes(p), CreateBytes(c), CloseBytes(x)} + {BlockBytes(b)};
  }

  ghost predicate ValidatorKey(key: PrivateKey, l: Ledger) {
    exists v :: v in l.validators && l.validators[v] == PublicOf(key)
  }

  /** An accepted payment whose signature was made over some payment is that payment, and the key is the payer's. */
  lemma SignatureFixesPayment(tx: Payment, key: PrivateKey, orig: Payment, l: Ledger)
    requires CheckPayment(tx, l) == Accepted && tx.signature == Sign(key, PaymentBytes(orig))
    ensures SamePaymentFields(tx, orig)
    ensures tx.payer.id in l.keys && l.keys[tx.payer.id] == PublicOf(key)
  {
    PaymentAcceptedIff(tx, l);
  }

  lemma SignatureFixesCreate(tx: AccountCreate, key: PrivateKey, orig: AccountCreate, l: Ledger)
    requires CheckCreate(tx, l) == Accepted && tx.signature == Sign(key, CreateBytes(orig))
    ensures SameCreateFields(tx, orig) && ValidatorKey(key, l)
  {
  }

  /** The same for closes: a validator's key for a person, the owner's for a merchant. */
  lemma SignatureFixesClose(tx: AccountClose, key: PrivateKey, orig: AccountClose, l: Ledger)
    requires CheckClose(tx, l) == Accepted && tx.signature == Sign(key, CloseBytes(orig))
    ensures SameCloseFields(tx, orig) && tx.account in l.accounts && tx.account in l.keys
    ensures l.accounts[tx.account].kind == Person ==> ValidatorKey(key, l)
    ensures l.accounts[tx.account].kind != Person ==> l.keys[tx.account] == PublicOf(key)
  {
  }

  /** No other signature will do: whoever's operation is accepted has signed an operation of that kind. */
  lemma AcceptedIsSigned(op: Op, l: Ledger)
    requires Apply(op, l).Ok?
    ensures match op
            case PayOp(tx) => tx.signature.Signed? && tx.signature.message.PaymentMessage?
            case CreateOp(tx) => tx.signature.Signed? && tx.signature.message.CreateMessage?
            case CloseOp(tx) => tx.signature.Signed? && tx.signature.message.CloseMessage?
  {
    if op.PayOp? {
      PaymentAcceptedIff(op.payment, l);
    }
  }

  /** An accepted block whose signature was made over some block has its content, and the key is that of the validator
      it names. */
  lemma SignatureFixesBlock(b: Block, prev: Block, key: PrivateKey, orig: Block, l: Ledger)
    requires CheckBlock(b, prev, l).Ok? && b.signature == Sign(key, BlockBytes(orig))
    ensures SameContent(b, orig) && b.validator in l.validators && l.validators[b.validator] == PublicOf(key)
  {
    hide Run, UnsignedBlockOf, SameContent;
    HashCommitsToContent(b, orig);
  }

  /** The 64-bit ledger checks payments against the same bytes. */
  lemma SignatureFixesPaymentM(tx: Payment, key: PrivateKey, orig: Payment, l: Ledger)
    requires Int64Fields(tx.items) && CheckPaymentM(tx, l) == Accepted && tx.signature == Sign(key, PaymentBytes(orig))
    ensures SamePaymentFields(tx, orig)
    ensures tx.payer.id in l.keys && l.keys[tx.payer.id] == PublicOf(key)
  {
    hide CheckPaymentM, Int64Fields, WellFormedM;
    MachineAcceptedIff(tx, l);
  }

  // ---------------------------------------------------------------------------------------------
  // Who can take money out of an account
  // ---------------------------------------------------------------------------------------------

  /** A payment by a, signed field by field under the key registered for a, or a close of the person a, signed so by a
      validator. */
  ghost predicate Authorises(op: Op, l: Ledger, a: AccountID) {
    match op
    case PayOp(tx) =>
      && tx.payer.id == a && a in l.keys && tx.signature.Signed? && PublicOf(tx.signature.key) == l.keys[a]
      && tx.signature.message
         == PaymentMessage(UnsignedPayment(tx.id, tx.timestamp.second, tx.payer, tx.payee, tx.items))
    case CloseOp(tx) =>
      && tx.account == a && a in l.accounts && l.accounts[a].kind == Person
      && tx.signature.Signed? && ValidatorKey(tx.signature.key, l)
      && tx.signature.message
         == CloseMessage(UnsignedClose(tx.id, tx.timestamp.second, tx.account, tx.publicKey, tx.destination))
    case CreateOp(_) => false
  }

  lemma PaymentDebits(tx: Payment, l: Ledger, a: AccountID)
    requires Sound(l) && Apply(PayOp(tx), l).Ok?
    requires BalanceOf(Apply(PayOp(tx), l).value.accounts, a) < BalanceOf(l.accounts, a)
    ensures Authorises(PayOp(tx), l, a)
  {
    PaymentIsGentle(tx, l, tx);
    PaymentAcceptedIff(tx, l);
  }

  lemma OpDebits(op: Op, l: Ledger, a: AccountID)
    requires Sound(l) && Apply(op, l).Ok? && BalanceOf(Apply(op, l).value.accounts, a) < BalanceOf(l.accounts, a)
    ensures Authorises(op, l, a)
  {
    match op
    case PayOp(tx) => PaymentDebits(tx, l, a);
    case CreateOp(tx) => CreateEffect(tx, l, a);
    case CloseOp(tx) => CloseEffect(tx, l, a);
  }

  ghost predicate AuthorisedAt(ops: seq<Op>, l: Ledger, a: AccountID, i: int) {
    0 <= i < |ops| && Run(ops[..i], l).Ok? && Authorises(ops[i], Run(ops[..i], l).value, a)
  }

  /** Over any accepted run: an account that ends with less than it began with has signed a payment on the way, or a
      validator has signed its close. */
  lemma {:induction false} DebitsAreAuthorised(ops: seq<Op>, l: Ledger, a: AccountID) returns (i: nat)
    requires Sound(l) && Run(ops, l).Ok? && BalanceOf(Run(ops, l).value.accounts, a) < BalanceOf(l.accounts, a)
    ensures AuthorisedAt(ops, l, a, i)
  {
    hide Apply, Authorises;
    var init, last := ops[..|ops| - 1], ops[|ops| - 1];
    var before := Run(init, l).value;
    RunConserves(init, l);
    if BalanceOf(before.accounts, a) < BalanceOf(l.accounts, a) {
      i := DebitsAreAuthorised(init, l, a);
      assert init[..i] == ops[..i];
    } else {
      i := |init|;
      OpDebits(last, before, a);
    }
  }

  // ---------------------------------------------------------------------------------------------
  // The same on 64-bit integers
  // ---------------------------------------------------------------------------------------------

  lemma OthersOnlyGain(tx: Payment, l: Ledger, a: AccountID)
    requires CoveredDebit(l.accounts, PostingsM(tx, l.taxes)) && a != tx.payer.id
    ensures BalanceOf(l.accounts, a) <= BalanceOf(Post(l.accounts, PostingsM(tx, l.taxes)), a)
  {
    hide GrossM, NetM, ItemsPostingsM;
    var p := PostingsM(tx, l.taxes);
    OnlyCredits(l.accounts, p);
    PrefixBelowFinal(l.accounts, p, 1, |p|, a);
    assert p[..1] == [p[0]] && p[..|p|] == p;
    PostOne(l.accounts, tx.payer.id, -GrossM(tx.items));
  }

  lemma KeptIsExact(tx: Payment, l: Ledger)
    requires Sound64(l) && Int64Fields(tx.items) && CheckPaymentM(tx, l) == Accepted && KeepsMoney(tx, l)
    ensures PostM(l.accounts, PostingsM(tx, l.taxes)) == Post(l.accounts, PostingsM(tx, l.taxes))
  {
    hide CheckPaymentM, PostingsM, KeepsMoney, Within, Supply, Splits, GrossM, Int64Fields;
    var p := PostingsM(tx, l.taxes);
    AcceptedAmounts(tx, l);
    KeepsMoneyIffExact(tx, l);
    ExactIsInRange(l.accounts, p, |p|, Supply(l.accounts));
    assert p[..|p|] == p;
  }

  lemma MachinePaymentDebits(tx: Payment, l: Ledger, a: AccountID)
    requires Sound64(l) && ApplyM(PayOp(tx), l).Ok?
    requires Int64Fields(tx.items) && SplitsCredit(tx, l.taxes) && KeepsMoney(tx, l)
    requires BalanceOf(ApplyM(PayOp(tx), l).value.accounts, a) < BalanceOf(l.accounts, a)
    ensures Authorises(PayOp(tx), l, a)
  {
    hide CheckPaymentM, PostingsM, PostM, Post, KeepsMoney, Supply, GrossM, NetM, Int64Fields, SplitsCredit, Sound64,
      WellFormedM;
    AcceptedPays(tx, l);
    AcceptedTransfer(tx, l);
    KeptIsExact(tx, l);
    if a != tx.payer.id {
      OthersOnlyGain(tx, l, a);
    }
    MachineAcceptedIff(tx, l);
  }

  lemma MachineOpDebits(op: Op, l: Ledger, a: AccountID)
    requires Sound64(l) && ApplyM(op, l).Ok? && OpKeepsMoney(op, l)
    requires op.PayOp? ==> Int64Fields(op.payment.items) && SplitsCredit(op.payment, l.taxes)
    requires BalanceOf(ApplyM(op, l).value.accounts, a) < BalanceOf(l.accounts, a)
    ensures Authorises(op, l, a)
  {
    hide Authorises, Int64Fields, SplitsCredit, KeepsMoney, CheckPaymentM, Supply, Closed, ClosedM;
    match op
    case PayOp(tx) => MachinePaymentDebits(tx, l, a);
    case CreateOp(tx) => OpDebits(op, l, a);
    case CloseOp(tx) =>
      CloseFits(tx, l);
      OpDebits(op, l, a);
  }

  ghost predicate AuthorisedAtM(ops: seq<Op>, l: Ledger, a: AccountID, i: int) {
    0 <= i < |ops| && RunM(ops[..i], l).Ok? && Authorises(ops[i], RunM(ops[..i], l).value, a)
  }

  /** On 64-bit integers this holds of every accepted run that keeps money and posts no negative tax. */
  lemma {:induction false} MachineDebitsAreAuthorised(ops: seq<Op>, l: Ledger, a: AccountID) returns (i: nat)
    requires Sound64(l) && RunM(ops, l).Ok? && Payable(ops, l.taxes) && RunKeepsMoney(ops, l)
    requires BalanceOf(RunM(ops, l).value.accounts, a) < BalanceOf(l.accounts, a)
    ensures AuthorisedAtM(ops, l, a, i)
  {
    hide ApplyM, Authorises, OpKeepsMoney, OpFits, Sound64, Int64Fields, SplitsCredit, Payable, Int64Ops;
    var init, last := ops[..|ops| - 1], ops[|ops| - 1];
    var before := RunM(init, l).value;
    PayableParts(ops, l.taxes);
    PayableIsInt64(init, l.taxes);
    MachineRunConservesIff(init, l);
    if BalanceOf(before.accounts, a) < BalanceOf(l.accounts, a) {
      i := MachineDebitsAreAuthorised(init, l, a);
      assert init[..i] == ops[..i];
    } else {
      i := |init|;
      MachineOpDebits(last, before, a);
    }
  }
}
