/** The selection and slots of `Production` and `Bridge`, on a node whose pool `Solvency` keeps covered. */
module SolventSlots {
  import opened Domain
  import opened TaxRounding
  import opened LedgerRules
  import opened LedgerEffects
  import opened Mempool
  import opened Admission
  import opened Production
  import opened Solvency
  import opened Sync
  import Bridge

  lemma BodyGrows(creates: seq<AccountCreate>, pending: seq<Payment>, n: nat)
    requires 0 < n <= |pending|
    ensures PayOps(pending[..n]) == PayOps(pending[..n - 1]) + [PayOp(pending[n - 1])]
    ensures BlockBody(creates, pending[..n]) == BlockBody(creates, pending[..n - 1]) + [PayOp(pending[n - 1])]
  {
    assert PayOps(pending[..n]) == PayOps(pending[..n - 1]) + [PayOp(pending[n - 1])];
  }

  lemma EmptyBody(creates: seq<AccountCreate>, none: seq<Payment>)
    requires none == []
    ensures BlockBody(creates, none) == CreateOps(creates)
  {
  }

  lemma SoundRates(l: Ledger)
    requires Sound(l)
    ensures NonNegativeRates(l.taxes)
  {
  }

  /** Trying the first n waiting payments on top of the creates chooses them all. */
  lemma {:induction false} AllAreChosen(creates: seq<AccountCreate>, pending: seq<Payment>, n: nat, l: Ledger,
                                        created: Ledger)
    requires Sound(l) && AllAdmissible(pending, l) && Covered(pending, l) && n <= |pending|
    requires Run(CreateOps(creates), l) == Ok(created)
    ensures Attempt(PayOps(pending)[..n], created).chosen == PayOps(pending[..n])
    ensures Attempt(PayOps(pending)[..n], created).dropped == []
    ensures Run(BlockBody(creates, pending[..n]), l) == Ok(Attempt(PayOps(pending)[..n], created).scratch)
  {
    hide Apply, Covered, AllAdmissible, BlockBody, Sound, Run, PayOps;
    SoundRates(l);
    if n == 0 {
      EmptyBody(creates, pending[..0]);
    } else {
      var before, tx := pending[..n - 1], pending[n - 1];
      AllAreChosen(creates, pending, n - 1, l, created);
      assert pending == before + [tx] + pending[n..];
      CoveredSplit(before, tx, pending[n..], l);
      NextPaymentApplies(creates, before, tx, l);
      AttemptNext(PayOps(pending), n - 1, created);
      BodyGrows(creates, pending, n);
      RunSnoc(BlockBody(creates, before), PayOp(tx), l);
    }
  }

  /** The replaying check looks at the ledger that trying all waiting payments, as selection does, leads to. */
  lemma {:induction false} ReplayedIsTried(pending: seq<Payment>, l: Ledger)
    ensures Replayed(pending, l) == Attempt(PayOps(pending), l).scratch
  {
    hide Apply;
    if pending != [] {
      ReplayedIsTried(pending[..|pending| - 1], l);
      assert PayOps(pending)[..|pending| - 1] == PayOps(pending[..|pending| - 1]);
    }
  }

  lemma SamePayments(p: seq<Payment>, q: seq<Payment>)
    requires PayOps(p) == PayOps(q)
    ensures p == q
  {
    assert |p| == |PayOps(p)| && |q| == |PayOps(q)|;
    forall i | 0 <= i < |p| ensures p[i] == q[i] {
      assert PayOps(p)[i] == PayOp(p[i]) && PayOps(q)[i] == PayOp(q[i]);
    }
  }

  /** Selection from a covered pool drops no payment and picks a prefix of what waits, whatever creates it picked
      before, whatever the cap, and whatever closes are waiting. */
  lemma SelectionDropsNoPayment(q: Queues, max: nat, l: Ledger, picked: Picked, trace: Trace)
    requires Selects(q, max, l, picked, trace)
    requires Sound(l) && AllAdmissible(q.payments, l) && Covered(q.payments, l)
    ensures picked.dropPayments == [] && trace.payments <= |q.payments|
    ensures picked.payments == q.payments[..trace.payments]
    ensures Run(BlockBody(picked.creates, picked.payments), l) == Ok(trace.paid)
  {
    hide Attempt, Run, Covered, AllAdmissible, Sound;
    PickReplays(CreateOps(q.creates), trace.creates, max, l, CreateOps(picked.creates), picked.dropCreates,
                trace.created);
    AllAreChosen(picked.creates, q.payments, trace.payments, l, trace.created);
    SamePayments(picked.payments, q.payments[..trace.payments]);
  }

  lemma NothingToClose(q: Queues, max: nat, l: Ledger, picked: Picked, trace: Trace)
    requires Selects(q, max, l, picked, trace) && q.closes == []
    ensures picked.closes == [] && trace.scratch == trace.paid
  {
    assert CloseOps(q.closes)[..trace.closes] == [];
    assert |CloseOps(picked.closes)| == |picked.closes|;
  }

  /** What a slot starts from: a pool that Solvency's invariant holds of. */
  ghost predicate Solvent(pending: seq<Payment>, l: Ledger) {
    Sound(l) && DistinctIds(pending) && AllAdmissible(pending, l) && Covered(pending, l)
  }

  // Committing a selected prefix, as the Append and Release steps of Solvency.
  lemma CommittedStaysSolvent(pending: seq<Payment>, l: Ledger, creates: seq<AccountCreate>, n: nat, after: Ledger)
    requires Solvent(pending, l) && n <= |pending|
    requires Run(BlockBody(creates, pending[..n]), l) == Ok(after)
    ensures Without(pending, Ids(pending[..n]), PaymentId) == pending[n..]
    ensures Solvent(pending[n..], after)
  {
    hide Run, Covered, AllAdmissible, DistinctIds, Sound, Without, Ids;
    var chosen := pending[..n];
    var s := Node(l, pending, Sealed(creates, chosen));
    var t := Node(after, pending, Appended(chosen));
    var u := Node(after, Without(pending, Ids(chosen), PaymentId), Idle);
    AppendKeeps(s, t);
    ReleaseKeeps(t, u);
    assert chosen + pending[n..] == pending;
    WithoutPrefix(chosen, pending[n..]);
  }

  lemma IdsAreIds(txs: seq<Payment>)
    ensures IdSet(IdsOf(txs, PaymentId)) == Ids(txs)
  {
    forall id ensures id in IdSet(IdsOf(txs, PaymentId)) <==> id in Ids(txs) {
      if id in Ids(txs) {
        var i :| 0 <= i < |txs| && txs[i].id == id;
        assert IdsOf(txs, PaymentId)[i] == id;
      }
    }
  }

  /** A slot of the bridge keeps its pool solvent: no payment is dropped, a prefix of the waiting payments goes into the
      block, and what is left is covered by the ledger the slot leaves behind. Without a block nothing changes. */
  lemma SlotStaysSolvent(before: Replica, q: Queues, after: Replica, left: Queues, block: Option<Block>, picked: Picked,
                         trace: Trace, max: nat, ioOk: bool, validator: string, key: PrivateKey, now: Timestamp)
    requires before.chain != []
    requires Bridge.SlotOutcome(before, q, after, left, block, picked, trace, max, ioOk, validator, key, now)
    requires q.closes == [] && Solvent(q.payments, before.ledger)
    ensures picked.dropPayments == [] && trace.payments <= |q.payments|
    ensures left.payments == if block.Some? then q.payments[trace.payments..] else q.payments
    ensures left.closes == [] && Solvent(left.payments, after.ledger)
  {
    hide Selects, Solvent, Run, Ids;
    SolventParts(q.payments, before.ledger);
    SelectionDropsNoPayment(q, max, before.ledger, picked, trace);
    NothingToClose(q, max, before.ledger, picked, trace);
    WithoutNone(q.payments, IdSet(picked.dropPayments), PaymentId);
    if block.Some? {
      CommittedStaysSolvent(q.payments, before.ledger, picked.creates, trace.payments, trace.paid);
      IdsAreIds(picked.payments);
    }
  }

  lemma SolventParts(pending: seq<Payment>, l: Ledger)
    requires Solvent(pending, l)
    ensures Sound(l) && AllAdmissible(pending, l) && Covered(pending, l)
  {
  }

  /** So does the admission of any payment by the fast check, or its rejection. */
  lemma AdmissionStaysSolvent(pending: seq<Payment>, l: Ledger, tx: Payment)
    requires Solvent(pending, l)
    ensures Solvent(AdmitTo(pending, tx, PaymentId, CheckAdmit(tx, l, PendingGross(pending, tx.payer.id))), l)
  {
    hide CheckAdmit, Covered, AllAdmissible, Sound;
    var s := Node(l, pending, Idle);
    IdsAreIds(pending);
    if tx.id !in Ids(pending) && CheckAdmit(tx, l, PendingGross(pending, tx.payer.id)).Accepted? {
      AdmitKeeps(s, s.(pending := pending + [tx]), tx);
    }
  }
}
