/** Whole runs of a node whose blocks all come from its own payment pool, with no account closes. Admission
    can run between any two steps of block production except while the pool's Commit holds the pool lock. */
module Solvency {
  import opened Domain
  import opened LedgerRules
  import opened TaxRounding
  import opened LedgerEffects
  import opened Mempool
  import opened Admission

  datatype Phase =
    | Idle
    // selectExecutable has taken its snapshot of the ledger and applied the account creates it picked
    | Started(scratch: Ledger, creates: seq<AccountCreate>)
    // ... has peeked at the payment pool and tried the first `next` payments
    | Selecting(scratch: Ledger, creates: seq<AccountCreate>, peeked: seq<Payment>, next: nat,
                chosen: seq<Payment>, dropped: seq<Payment>)
    // ... has returned; the block is being built and signed
    | Sealed(creates: seq<AccountCreate>, chosen: seq<Payment>)
    // AppendBlock has returned inside Commit, which still holds the pool lock and has not released yet
    | Appended(chosen: seq<Payment>)

  datatype Node = Node(ledger: Ledger, pending: seq<Payment>, phase: Phase)

  function Ids(txs: seq<Payment>): set<TxID> { set i | 0 <= i < |txs| :: txs[i].id }

  function BlockBody(creates: seq<AccountCreate>, payments: seq<Payment>): seq<Op> {
    CreateOps(creates) + PayOps(payments)
  }

  ghost predicate Admit(s: Node, t: Node, tx: Payment) {
    && !s.phase.Appended?
    && tx.id !in Ids(s.pending)
    && CheckAdmit(tx, s.ledger, PendingGross(s.pending, tx.payer.id)) == Accepted
    && t == s.(pending := s.pending + [tx])
  }

  ghost predicate Begin(s: Node, t: Node, creates: seq<AccountCreate>) {
    && s.phase == Idle
    && Run(CreateOps(creates), s.ledger).Ok?
    && t == s.(phase := Started(Run(CreateOps(creates), s.ledger).value, creates))
  }

  ghost predicate Peek(s: Node, t: Node) {
    && s.phase.Started?
    && t == s.(phase := Selecting(s.phase.scratch, s.phase.creates, s.pending, 0, [], []))
  }

  ghost predicate MayTry(s: Node, max: int) {
    && s.phase.Selecting?
    && s.phase.next < |s.phase.peeked|
    && |s.phase.creates| + |s.phase.chosen| < max
  }

  ghost predicate Pick(s: Node, t: Node, max: int) {
    && MayTry(s, max)
    && var tx := s.phase.peeked[s.phase.next];
    && Apply(PayOp(tx), s.phase.scratch).Ok?
    && t == s.(phase := s.phase.(scratch := Apply(PayOp(tx), s.phase.scratch).value,
                                 next := s.phase.next + 1, chosen := s.phase.chosen + [tx]))
  }

  ghost predicate Drop(s: Node, t: Node, max: int) {
    && MayTry(s, max)
    && var tx := s.phase.peeked[s.phase.next];
    && Apply(PayOp(tx), s.phase.scratch).Err?
    && t == s.(phase := s.phase.(next := s.phase.next + 1, dropped := s.phase.dropped + [tx]))
  }

  ghost predicate Seal(s: Node, t: Node, max: int) {
    && s.phase.Selecting?
    && (s.phase.next == |s.phase.peeked| || max <= |s.phase.creates| + |s.phase.chosen|)
    && t == s.(pending := Without(s.pending, Ids(s.phase.dropped), PaymentId),
               phase := Sealed(s.phase.creates, s.phase.chosen))
  }

  ghost predicate Append(s: Node, t: Node) {
    && s.phase.Sealed?
    && var r := Run(BlockBody(s.phase.creates, s.phase.chosen), s.ledger);
    && r.Ok?
    && t == s.(ledger := r.value, phase := Appended(s.phase.chosen))
  }

  // No key, a store failure, an empty selection: nothing is committed.
  ghost predicate Abandon(s: Node, t: Node) {
    s.phase.Sealed? && t == s.(phase := Idle)
  }

  ghost predicate Release(s: Node, t: Node) {
    && s.phase.Appended?
    && t == s.(pending := Without(s.pending, Ids(s.phase.chosen), PaymentId), phase := Idle)
  }

  ghost predicate Step(s: Node, t: Node, max: int) {
    || (exists tx :: Admit(s, t, tx))
    || (exists creates :: Begin(s, t, creates))
    || Peek(s, t) || Pick(s, t, max) || Drop(s, t, max) || Seal(s, t, max)
    || Append(s, t) || Abandon(s, t) || Release(s, t)
  }

  ghost predicate Start(s: Node) {
    Sound(s.ledger) && s.pending == [] && s.phase == Idle
  }

  ghost predicate IsRun(run: seq<Node>, max: int) {
    && run != []
    && Start(run[0])
    && forall i :: 0 <= i < |run| - 1 ==> Step(run[i], run[i + 1], max)
  }

  // ---------------------------------------------------------------------------------------------
  // The invariant
  // ---------------------------------------------------------------------------------------------

  ghost predicate Covered(pending: seq<Payment>, l: Ledger) {
    forall payer :: PendingGross(pending, payer) <= BalanceOf(l.accounts, payer)
  }

  ghost predicate AllAdmissible(pending: seq<Payment>, l: Ledger) {
    forall i :: 0 <= i < |pending| ==> Admissible(pending[i], l)
  }

  ghost predicate DistinctIds(txs: seq<Payment>) {
    forall i, j :: 0 <= i < j < |txs| ==> txs[i].id != txs[j].id
  }

  ghost predicate PhaseOk(s: Node) {
    match s.phase
    case Idle => Covered(s.pending, s.ledger)
    case Started(scratch, creates) =>
      Covered(s.pending, s.ledger) && Run(BlockBody(creates, []), s.ledger) == Ok(scratch)
    case Selecting(scratch, creates, peeked, next, chosen, dropped) =>
      && Covered(s.pending, s.ledger)
      && peeked <= s.pending && next <= |peeked| && chosen == peeked[..next] && dropped == []
      && Run(BlockBody(creates, chosen), s.ledger) == Ok(scratch)
    case Sealed(creates, chosen) =>
      Covered(s.pending, s.ledger) && chosen <= s.pending && Run(BlockBody(creates, chosen), s.ledger).Ok?
    case Appended(chosen) =>
      chosen <= s.pending && Covered(s.pending[|chosen|..], s.ledger)
  }

  ghost predicate Inv(s: Node) {
    Sound(s.ledger) && DistinctIds(s.pending) && AllAdmissible(s.pending, s.ledger) && PhaseOk(s)
  }

  lemma CreateIsGentle(tx: AccountCreate, l: Ledger, payment: Payment)
    requires Apply(CreateOp(tx), l).Ok?
    ensures var after := Apply(CreateOp(tx), l).value;
            && after.taxes == l.taxes
            && (forall a :: BalanceOf(after.accounts, a) == BalanceOf(l.accounts, a))
            && (Admissible(payment, l) ==> Admissible(payment, after))
  {
    var after := Created(tx, l);
    if Admissible(payment, l) {
      forall item | item in payment.items ensures ItemAllowed(item, after) {
        assert ItemAllowed(item, l);
      }
    }
  }

  lemma {:induction false} CreatesAreGentle(txs: seq<AccountCreate>, l: Ledger, payment: Payment)
    requires Run(CreateOps(txs), l).Ok?
    ensures var after := Run(CreateOps(txs), l).value;
            && after.taxes == l.taxes
            && (forall a :: BalanceOf(after.accounts, a) == BalanceOf(l.accounts, a))
            && (Admissible(payment, l) ==> Admissible(payment, after))
  {
    if txs != [] {
      var init := txs[..|txs| - 1];
      assert CreateOps(txs)[..|txs| - 1] == CreateOps(init);
      CreatesAreGentle(init, l, payment);
      CreateIsGentle(txs[|txs| - 1], Run(CreateOps(init), l).value, payment);
    }
  }

  lemma {:induction false} PaymentsAreGentle(txs: seq<Payment>, l: Ledger, payment: Payment)
    requires NonNegativeRates(l.taxes) && Run(PayOps(txs), l).Ok?
    ensures var after := Run(PayOps(txs), l).value;
            && after.taxes == l.taxes
            && (forall a :: BalanceOf(after.accounts, a) >= BalanceOf(l.accounts, a) - PendingGross(txs, a))
            && (Admissible(payment, l) ==> Admissible(payment, after))
  {
    if txs != [] {
      var init := txs[..|txs| - 1];
      assert PayOps(txs)[..|txs| - 1] == PayOps(init);
      PaymentsAreGentle(init, l, payment);
      PaymentIsGentle(txs[|txs| - 1], Run(PayOps(init), l).value, payment);
    }
  }

  lemma BodyIsGentle(creates: seq<AccountCreate>, txs: seq<Payment>, l: Ledger, payment: Payment)
    requires NonNegativeRates(l.taxes) && Run(BlockBody(creates, txs), l).Ok?
    ensures var after := Run(BlockBody(creates, txs), l).value;
            && (forall a :: BalanceOf(after.accounts, a) >= BalanceOf(l.accounts, a) - PendingGross(txs, a))
            && (Admissible(payment, l) ==> Admissible(payment, after))
  {
    RunConcat(CreateOps(creates), PayOps(txs), l);
    CreatesAreGentle(creates, l, payment);
    PaymentsAreGentle(txs, Run(CreateOps(creates), l).value, payment);
  }

  lemma AdmissibleGrossNonNegative(pending: seq<Payment>, l: Ledger)
    requires AllAdmissible(pending, l)
    ensures GrossNonNegative(pending)
  {
    forall i | 0 <= i < |pending| ensures 0 <= Gross(pending[i]) {
      PaymentAcceptedIff(pending[i], l);
    }
  }

  lemma CoveredSplit(before: seq<Payment>, tx: Payment, rest: seq<Payment>, l: Ledger)
    requires AllAdmissible(before + [tx] + rest, l) && Covered(before + [tx] + rest, l)
    ensures Admissible(tx, l)
    ensures PendingGross(before, tx.payer.id) + Gross(tx) <= BalanceOf(l.accounts, tx.payer.id)
  {
    hide Admissible;
    var all := before + [tx] + rest;
    assert all[|before|] == tx;
    PendingGrossConcat(before + [tx], rest, tx.payer.id);
    PendingGrossConcat(before, [tx], tx.payer.id);
    PendingGrossOne(tx, tx.payer.id);
    forall i | 0 <= i < |rest| ensures Admissible(rest[i], l) {
      assert all[|before| + 1 + i] == rest[i];
    }
    AdmissibleGrossNonNegative(rest, l);
    PendingGrossNonNegative(rest, tx.payer.id);
  }

  lemma NextPaymentApplies(creates: seq<AccountCreate>, before: seq<Payment>, tx: Payment, l: Ledger)
    requires NonNegativeRates(l.taxes) && Run(BlockBody(creates, before), l).Ok?
    requires Admissible(tx, l)
    requires PendingGross(before, tx.payer.id) + Gross(tx) <= BalanceOf(l.accounts, tx.payer.id)
    ensures Apply(PayOp(tx), Run(BlockBody(creates, before), l).value).Ok?
  {
    BodyIsGentle(creates, before, l, tx);
    PaymentAcceptedIff(tx, Run(BlockBody(creates, before), l).value);
  }

  /** Whatever selection tries next is executable on its scratch ledger. */
  lemma NextIsExecutable(s: Node, max: int)
    requires Inv(s) && MayTry(s, max)
    ensures Apply(PayOp(s.phase.peeked[s.phase.next]), s.phase.scratch).Ok?
  {
    hide Apply, Covered, AllAdmissible;
    var n := s.phase.next;
    var tx := s.pending[n];
    assert s.phase.peeked[n] == tx && s.phase.chosen == s.pending[..n];
    assert s.pending == s.pending[..n] + [tx] + s.pending[n + 1..];
    CoveredSplit(s.pending[..n], tx, s.pending[n + 1..], s.ledger);
    NextPaymentApplies(s.phase.creates, s.phase.chosen, tx, s.ledger);
  }

  lemma {:induction false} WithoutPrefix(chosen: seq<Payment>, rest: seq<Payment>)
    requires DistinctIds(chosen + rest)
    ensures Without(chosen + rest, Ids(chosen), PaymentId) == rest
  {
    var all := chosen + rest;
    if rest == [] {
      assert all == chosen;
      WithoutAll(chosen, Ids(chosen));
    } else {
      var init, last := rest[..|rest| - 1], rest[|rest| - 1];
      assert all[..|all| - 1] == chosen + init;
      assert forall i, j :: 0 <= i < j < |chosen + init| ==>
               (chosen + init)[i] == all[i] && (chosen + init)[j] == all[j];
      WithoutPrefix(chosen, init);
      forall i | 0 <= i < |chosen| ensures chosen[i].id != last.id {
        assert all[i] == chosen[i] && all[|all| - 1] == last;
      }
    }
  }

  lemma {:induction false} WithoutAll(pending: seq<Payment>, ids: set<TxID>)
    requires forall i :: 0 <= i < |pending| ==> pending[i].id in ids
    ensures Without(pending, ids, PaymentId) == []
  {
    if pending != [] {
      WithoutAll(pending[..|pending| - 1], ids);
    }
  }

  // ---------------------------------------------------------------------------------------------
  // Every step keeps it
  // ---------------------------------------------------------------------------------------------

  lemma AdmitKeeps(s: Node, t: Node, tx: Payment)
    requires Inv(s) && Admit(s, t, tx)
    ensures Inv(t)
  {
    AdmittedIff(tx, s.ledger, PendingGross(s.pending, tx.payer.id));
    forall payer ensures PendingGross(t.pending, payer) <= BalanceOf(s.ledger.accounts, payer) {
      PendingGrossConcat(s.pending, [tx], payer);
      PendingGrossOne(tx, payer);
    }
    forall i | 0 <= i < |s.pending| ensures s.pending[i].id != tx.id {
      assert s.pending[i].id in Ids(s.pending);
    }
  }

  lemma PickKeeps(s: Node, t: Node, max: int)
    requires Inv(s) && Pick(s, t, max)
    ensures Inv(t)
  {
    hide Admissible, CheckPayment, CheckCreate, CheckClose;
    var tx := s.phase.peeked[s.phase.next];
    assert PayOps(t.phase.chosen) == PayOps(s.phase.chosen) + [PayOp(tx)];
    assert BlockBody(t.phase.creates, t.phase.chosen) == BlockBody(s.phase.creates, s.phase.chosen) + [PayOp(tx)];
    RunSnoc(BlockBody(s.phase.creates, s.phase.chosen), PayOp(tx), s.ledger);
  }

  lemma SealKeeps(s: Node, t: Node, max: int)
    requires Inv(s) && Seal(s, t, max)
    ensures Inv(t)
  {
    assert Ids(s.phase.dropped) == {};
    WithoutNone(s.pending, {}, PaymentId);
    assert s.phase.chosen <= s.pending;
  }

  lemma AppendKeeps(s: Node, t: Node)
    requires Inv(s) && Append(s, t)
    ensures Inv(t)
  {
    var chosen, rest := s.phase.chosen, s.pending[|s.phase.chosen|..];
    RunConserves(BlockBody(s.phase.creates, chosen), s.ledger);
    assert s.pending == chosen + rest;
    forall i | 0 <= i < |t.pending| ensures Admissible(t.pending[i], t.ledger) {
      assert Admissible(s.pending[i], s.ledger);
      BodyIsGentle(s.phase.creates, chosen, s.ledger, s.pending[i]);
    }
    forall payer ensures PendingGross(rest, payer) <= BalanceOf(t.ledger.accounts, payer) {
      PendingGrossConcat(chosen, rest, payer);
      assert PendingGross(s.pending, payer) <= BalanceOf(s.ledger.accounts, payer);
      if rest != [] {
        BodyIsGentle(s.phase.creates, chosen, s.ledger, rest[0]);
      }
    }
  }

  lemma ReleaseKeeps(s: Node, t: Node)
    requires Inv(s) && Release(s, t)
    ensures Inv(t)
  {
    hide Without, Apply;
    var chosen := s.phase.chosen;
    assert s.pending == chosen + s.pending[|chosen|..];
    WithoutPrefix(chosen, s.pending[|chosen|..]);
    assert t.pending == s.pending[|chosen|..];
    assert forall i :: 0 <= i < |t.pending| ==> t.pending[i] == s.pending[|chosen| + i];
  }

  lemma StepKeeps(s: Node, t: Node, max: int)
    requires Inv(s) && Step(s, t, max)
    ensures Inv(t)
  {
    if tx :| Admit(s, t, tx) {
      AdmitKeeps(s, t, tx);
    } else if creates :| Begin(s, t, creates) {
      assert BlockBody(creates, []) == CreateOps(creates);
    } else if Peek(s, t) {
      assert s.pending[..0] == [];
    } else if Pick(s, t, max) {
      PickKeeps(s, t, max);
    } else if Drop(s, t, max) {
      NextIsExecutable(s, max);
    } else if Seal(s, t, max) {
      SealKeeps(s, t, max);
    } else if Append(s, t) {
      AppendKeeps(s, t);
    } else if Release(s, t) {
      ReleaseKeeps(s, t);
    }
  }

  lemma {:induction false} RunKeeps(run: seq<Node>, max: int, i: nat)
    requires IsRun(run, max) && i < |run|
    ensures Inv(run[i])
  {
    if i == 0 {
      forall payer ensures 0 <= BalanceOf(run[0].ledger.accounts, payer) {}
    } else {
      RunKeeps(run, max, i - 1);
      assert Step(run[i - 1], run[i - 1 + 1], max);
      StepKeeps(run[i - 1], run[i], max);
    }
  }

  /** In every reachable state where the admission check can run, what a payer has reserved is covered by their
      confirmed balance; and no admitted payment is ever found unexecutable, whatever the block cap and
      however account creates interleave. */
  lemma MempoolStaysSolvent(run: seq<Node>, max: int, i: nat)
    requires IsRun(run, max) && i < |run|
    ensures !run[i].phase.Appended? ==>
              forall payer :: PendingGross(run[i].pending, payer) <= BalanceOf(run[i].ledger.accounts, payer)
    ensures i + 1 < |run| ==> !Drop(run[i], run[i + 1], max)
    ensures run[i].phase.Selecting? ==> run[i].phase.dropped == []
  {
    RunKeeps(run, max, i);
    if i + 1 < |run| && Drop(run[i], run[i + 1], max) {
      NextIsExecutable(run[i], max);
    }
  }

  /** A sealed selection always passes ledger validation when it is appended. */
  lemma SealedAlwaysAppends(run: seq<Node>, max: int, i: nat)
    requires IsRun(run, max) && i < |run| && run[i].phase.Sealed?
    ensures Run(BlockBody(run[i].phase.creates, run[i].phase.chosen), run[i].ledger).Ok?
  {
    RunKeeps(run, max, i);
  }

  /** Releasing inside the lock is what makes this hold: between append and release the reservation can exceed
      the balance it is checked against. */
  lemma UnreleasedReservationCanExceedBalance(s: Node, t: Node, payer: AccountID)
    requires Inv(s) && Append(s, t)
    requires s.phase.creates == [] && |s.phase.chosen| == 1 && s.pending == s.phase.chosen
    requires payer == s.pending[0].payer.id && Gross(s.pending[0]) == BalanceOf(s.ledger.accounts, payer)
    requires payer != s.pending[0].payee.id && !ItemsRouteTo(s.pending[0].items, s.ledger.taxes, payer)
    ensures BalanceOf(t.ledger.accounts, payer) < PendingGross(t.pending, payer)
  {
    var tx := s.pending[0];
    assert BlockBody([], [tx]) == [PayOp(tx)];
    assert s.phase.chosen == [tx] && s.pending == [tx];
    RunOne(PayOp(tx), s.ledger);
    PostingsRoute(tx, s.ledger.taxes, payer);
    PaymentEffect(tx, s.ledger, payer);
    UnroutedIsZero(tx.items, s.ledger.taxes, payer);
    PendingGrossOne(tx, payer);
    PaymentAcceptedIff(tx, s.ledger);
  }

  lemma {:induction false} UnroutedIsZero(items: seq<LineItem>, taxes: TaxTable, a: AccountID)
    requires !ItemsRouteTo(items, taxes, a)
    ensures Routed(items, taxes, a) == 0
  {
    if items != [] {
      var init, item := items[..|items| - 1], items[|items| - 1];
      assert !RoutesTo(item, taxes, a);
      forall i | 0 <= i < |init| ensures !RoutesTo(init[i], taxes, a) {
        assert init[i] == items[i];
      }
      UnroutedIsZero(init, taxes, a);
      UnroutedCodes(item.taxCodes, item.amount, taxes, a);
      UnroutedDiscounts(item.discounts, a);
    }
  }

  lemma {:induction false} UnroutedCodes(codes: seq<TaxCode>, amount: int, taxes: TaxTable, a: AccountID)
    requires !CodesRouteTo(codes, taxes, a)
    ensures RoutedCodes(codes, amount, taxes, a) == 0
  {
    if codes != [] {
      assert codes[|codes| - 1] in codes;
      assert forall c :: c in codes[..|codes| - 1] ==> c in codes;
      UnroutedCodes(codes[..|codes| - 1], amount, taxes, a);
    }
  }

  lemma {:induction false} UnroutedDiscounts(discounts: seq<Discount>, a: AccountID)
    requires !DiscountsRouteTo(discounts, a)
    ensures RoutedDiscounts(discounts, a) == 0
  {
    if discounts != [] {
      assert discounts[|discounts| - 1] in discounts;
      assert forall d :: d in discounts[..|discounts| - 1] ==> d in discounts;
      UnroutedDiscounts(discounts[..|discounts| - 1], a);
    }
  }
}
