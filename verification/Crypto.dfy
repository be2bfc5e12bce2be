/** Keys, signatures and the canonical bytes of package `crypto`. */
module Crypto {
  import opened Domain

  function PublicOf(key: PrivateKey): PublicKey { PublicKey(key.id) }

  function Sign(key: PrivateKey, message: Message): Signature { Signed(key, message) }

  predicate Verify(pub: PublicKey, message: Message, signature: Signature) {
    signature.Signed? && PublicOf(signature.key) == pub && signature.message == message
  }

  function ParseKey<K>(text: KeyText<K>): Result<K> {
    if text.Encoded? then Ok(text.key) else Err(MalformedKey)
  }

  // Sign bytes format a timestamp to the second and leave the signature out.

  function UnsignedPaymentOf(tx: Payment): UnsignedPayment {
    UnsignedPayment(tx.id, tx.timestamp.second, tx.payer, tx.payee, tx.items)
  }

  function UnsignedCreateOf(tx: AccountCreate): UnsignedCreate {
    UnsignedCreate(tx.id, tx.timestamp.second, tx.account, tx.publicKey)
  }

  function UnsignedCloseOf(tx: AccountClose): UnsignedClose {
    UnsignedClose(tx.id, tx.timestamp.second, tx.account, tx.publicKey, tx.destination)
  }

  function PaymentBytes(tx: Payment): Message { PaymentMessage(UnsignedPaymentOf(tx)) }

  function CreateBytes(tx: AccountCreate): Message { CreateMessage(UnsignedCreateOf(tx)) }

  function CloseBytes(tx: AccountClose): Message { CloseMessage(UnsignedCloseOf(tx)) }

  /** The content a block's hash and signature commit to. */
  function UnsignedBlockOf(b: Block): UnsignedBlock {
    UnsignedBlock(b.height, b.timestamp.second,
                  seq(|b.payments|, i requires 0 <= i < |b.payments| => UnsignedPaymentOf(b.payments[i])),
                  seq(|b.creates|, i requires 0 <= i < |b.creates| => UnsignedCreateOf(b.creates[i])),
                  seq(|b.closes|, i requires 0 <= i < |b.closes| => UnsignedCloseOf(b.closes[i])),
                  b.previousHash, b.validator)
  }

  function BlockBytes(b: Block): Message { BlockMessage(UnsignedBlockOf(b)) }

  function BlockHash(b: Block): Digest { Sha256(BlockBytes(b)) }

  method BlockSignBytes(b: Block) returns (bytes: Message)
    ensures bytes == BlockBytes(b)
  {
    var txs, creates, closes := [], [], [];
    for i := 0 to |b.payments|
      invariant |txs| == i && forall k :: 0 <= k < i ==> txs[k] == UnsignedPaymentOf(b.payments[k])
    {
      txs := txs + [UnsignedPaymentOf(b.payments[i])];
    }
    for i := 0 to |b.creates|
      invariant |creates| == i && forall k :: 0 <= k < i ==> creates[k] == UnsignedCreateOf(b.creates[k])
    {
      creates := creates + [UnsignedCreateOf(b.creates[i])];
    }
    for i := 0 to |b.closes|
      invariant |closes| == i && forall k :: 0 <= k < i ==> closes[k] == UnsignedCloseOf(b.closes[k])
    {
      closes := closes + [UnsignedCloseOf(b.closes[i])];
    }
    assert txs == UnsignedBlockOf(b).payments;
    assert creates == UnsignedBlockOf(b).creates;
    assert closes == UnsignedBlockOf(b).closes;
    bytes := BlockMessage(UnsignedBlock(b.height, b.timestamp.second, txs, creates, closes, b.previousHash,
                                        b.validator));
  }

  // ---------------------------------------------------------------------------------------------
  // What a hash commits to
  // ---------------------------------------------------------------------------------------------

  predicate SamePayment(a: Payment, b: Payment) {
    a.(signature := b.signature, timestamp := b.timestamp) == b && a.timestamp.second == b.timestamp.second
  }

  predicate SameCreate(a: AccountCreate, b: AccountCreate) {
    a.(signature := b.signature, timestamp := b.timestamp) == b && a.timestamp.second == b.timestamp.second
  }

  predicate SameClose(a: AccountClose, b: AccountClose) {
    a.(signature := b.signature, timestamp := b.timestamp) == b && a.timestamp.second == b.timestamp.second
  }

  /** Two blocks that differ at most in hash, signatures and fractions of a second. */
  predicate SameContent(a: Block, b: Block) {
    && a.height == b.height
    && a.timestamp.second == b.timestamp.second
    && |a.payments| == |b.payments|
    && (forall i :: 0 <= i < |a.payments| ==> SamePayment(a.payments[i], b.payments[i]))
    && |a.creates| == |b.creates|
    && (forall i :: 0 <= i < |a.creates| ==> SameCreate(a.creates[i], b.creates[i]))
    && |a.closes| == |b.closes|
    && (forall i :: 0 <= i < |a.closes| ==> SameClose(a.closes[i], b.closes[i]))
    && a.previousHash == b.previousHash
    && a.validator == b.validator
  }

  /** A block hash commits to everything but the hash itself, the signatures and the fractions of a second. */
  lemma HashCommitsToContent(a: Block, b: Block)
    ensures BlockHash(a) == BlockHash(b) <==> SameContent(a, b)
  {
    var ua, ub := UnsignedBlockOf(a), UnsignedBlockOf(b);
    if BlockHash(a) == BlockHash(b) {
      assert |a.payments| == |ua.payments| && |b.payments| == |ub.payments|;
      assert |a.creates| == |ua.creates| && |b.creates| == |ub.creates|;
      assert |a.closes| == |ua.closes| && |b.closes| == |ub.closes|;
      forall i | 0 <= i < |a.payments| ensures SamePayment(a.payments[i], b.payments[i]) {
        assert ua.payments[i] == ub.payments[i];
      }
      forall i | 0 <= i < |a.creates| ensures SameCreate(a.creates[i], b.creates[i]) {
        assert ua.creates[i] == ub.creates[i];
      }
      forall i | 0 <= i < |a.closes| ensures SameClose(a.closes[i], b.closes[i]) {
        assert ua.closes[i] == ub.closes[i];
      }
    }
    if SameContent(a, b) {
      forall i | 0 <= i < |a.payments| ensures ua.payments[i] == ub.payments[i] {
        assert SamePayment(a.payments[i], b.payments[i]);
      }
      forall i | 0 <= i < |a.creates| ensures ua.creates[i] == ub.creates[i] {
        assert SameCreate(a.creates[i], b.creates[i]);
      }
      forall i | 0 <= i < |a.closes| ensures ua.closes[i] == ub.closes[i] {
        assert SameClose(a.closes[i], b.closes[i]);
      }
      assert ua == ub;
    }
  }
}
