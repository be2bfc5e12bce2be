/** What becomes of messages: which transactions a pool takes in, which connections end, and that exchanges do. */
module Gossip {
  import opened Domain
  import opened LedgerRules
  import opened LedgerEffects
  import opened Mempool
  import opened Admission
  import opened Production
  import opened Sync
  import opened Network

  /** A gossiped payment joins the end of the payment pool if and only if its id is not waiting yet, it is admissible
      and its payer's balance covers it on top of what is reserved; nothing else happens to any pool. */
  lemma PaymentJoinsIff(tx: Payment, io: nat -> bool, r: Replica, q: Queues, reserved: int)
    requires r.chain != []
    ensures PoolsAfter(NewTransaction(tx), io, r, q, reserved)
            == if (forall p :: p in q.payments ==> p.id != tx.id)
                  && Admissible(tx, r.ledger) && Gross(tx) <= BalanceOf(r.ledger.accounts, tx.payer.id) - reserved
               then q.(payments := q.payments + [tx]) else q
  {
    hide CheckAdmit, Admissible;
    AdmittedIff(tx, r.ledger, reserved);
    IdWaits(q.payments, PaymentId, tx.id);
    assert forall p :: p in q.payments ==> PaymentId(p) == p.id;
  }

  /** A gossiped create, if and only if its id is not waiting yet and it is valid on the confirmed ledger. */
  lemma CreateJoinsIff(tx: AccountCreate, io: nat -> bool, r: Replica, q: Queues, reserved: int)
    requires r.chain != []
    ensures PoolsAfter(NewAccountCreate(tx), io, r, q, reserved)
            == if (forall p :: p in q.creates ==> p.id != tx.id) && Apply(CreateOp(tx), r.ledger).Ok?
               then q.(creates := q.creates + [tx]) else q
  {
    hide CheckCreate;
    IdWaits(q.creates, CreateId, tx.id);
    assert forall p :: p in q.creates ==> CreateId(p) == p.id;
  }

  /** A gossiped close likewise. */
  lemma CloseJoinsIff(tx: AccountClose, io: nat -> bool, r: Replica, q: Queues, reserved: int)
    requires r.chain != []
    ensures PoolsAfter(NewAccountClose(tx), io, r, q, reserved)
            == if (forall p :: p in q.closes ==> p.id != tx.id) && Apply(CloseOp(tx), r.ledger).Ok?
               then q.(closes := q.closes + [tx]) else q
  {
    hide CheckClose;
    IdWaits(q.closes, CloseId, tx.id);
    assert forall p :: p in q.closes ==> CloseId(p) == p.id;
  }

  lemma IdWaits<T>(waiting: seq<T>, idOf: T -> TxID, id: TxID)
    ensures id in IdsOf(waiting, idOf) <==> exists p :: p in waiting && idOf(p) == id
  {
    var ids := IdsOf(waiting, idOf);
    if id in ids {
      var i :| 0 <= i < |ids| && ids[i] == id;
      assert waiting[i] in waiting && idOf(waiting[i]) == id;
    }
    if p :| p in waiting && idOf(p) == id {
      var i :| 0 <= i < |waiting| && waiting[i] == p;
      assert ids[i] == id;
    }
  }

  /** How many more messages one message can lead to on its connection: a handshake from the dialer to the listener's
      handshake, that to a request, as do announced blocks, and a request to an answer. */
  function Stage(body: Body, inbound: bool): nat {
    match body
    case Handshake(_, _) => if inbound then 4 else 3
    case NewBlock(_) => 3
    case GetBlocks(_) => 2
    case BlocksResponse(_) => 1
    case _ => 0
  }

  /** Whatever a message contains, every reply to it is of a lower stage, so every exchange ends; and invalid blocks and
      transactions never end a connection, only another chain's handshake and a message that cannot be decoded do. */
  lemma ExchangesEnd(body: Body, inbound: bool, chainId: string, io: nat -> bool, r: Replica, reply: Body)
    requires r.chain != []
    ensures reply in React(body, inbound, chainId, io, r).replies ==> Stage(reply, !inbound) < Stage(body, inbound)
    ensures React(body, inbound, chainId, io, r).outcome.Rejected? <==>
            || (body.Handshake? && body.chainId != chainId)
            || (body.Undecodable? && body.part != OtherPayload)
  {
    hide ReceiveAll;
  }
}
