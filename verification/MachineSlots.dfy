/** Selection and slots on 64-bit integers: when they are those of `Production` and `Bridge`. */
module MachineSlots {
  import opened Domain
  import opened TaxRounding
  import opened LedgerRules
  import opened LedgerEffects
  import opened Mempool
  import opened Production
  import opened Sync
  import opened MachineInts
  import opened MachineMoney
  import opened MachineChains
  import opened MachineMempool
  import opened SolventSlots
  import Admission
  import Bridge
  import S = Solvency

  // ---------------------------------------------------------------------------------------------
  // Trying
  // ---------------------------------------------------------------------------------------------

  function TriedM(s: Selection, op: Op): Selection {
    var next := ApplyM(op, s.scratch);
    if next.Ok? then Selection(s.chosen + [op], s.dropped, next.value) else s.(dropped := s.dropped + [op])
  }

  function AttemptM(ops: seq<Op>, l: Ledger): Selection {
    if ops == [] then Selection([], [], l) else TriedM(AttemptM(ops[..|ops| - 1], l), ops[|ops| - 1])
  }

  lemma AppliedIsSmall(op: Op, l: Ledger)
    requires SmallSupply(l) && Apply(op, l).Ok?
    ensures SmallSupply(Apply(op, l).value) && Apply(op, l).value.taxes == l.taxes
  {
    hide Apply;
    ApplyConserves(op, l);
    RunOne(op, l);
    RunFrame([op], l);
  }

  lemma TriesTheSame(s: Selection, op: Op)
    requires SmallSupply(s.scratch) && (op.PayOp? ==> Fits(op.payment, s.scratch.taxes))
    ensures TriedM(s, op) == Tried(s, op)
    ensures SmallSupply(Tried(s, op).scratch) && Tried(s, op).scratch.taxes == s.scratch.taxes
  {
    hide Apply, ApplyM, Supply, Fits;
    ApplyIsExact(op, s.scratch);
    if Apply(op, s.scratch).Ok? {
      AppliedIsSmall(op, s.scratch);
    }
  }

  /** Trying operations whose payments fit chooses and drops the same on both kinds of integers. */
  lemma {:induction false} AttemptIsExact(ops: seq<Op>, l: Ledger)
    requires SmallSupply(l) && AllFit(ops, l.taxes)
    ensures AttemptM(ops, l) == Attempt(ops, l)
    ensures SmallSupply(Attempt(ops, l).scratch) && Attempt(ops, l).scratch.taxes == l.taxes
  {
    hide Tried, TriedM, SmallSupply, Fits;
    if ops != [] {
      var init, last := ops[..|ops| - 1], ops[|ops| - 1];
      assert AllFit(init, l.taxes) by {
        forall i | 0 <= i < |init| && init[i].PayOp? ensures Fits(init[i].payment, l.taxes) {
          assert init[i] == ops[i];
        }
      }
      AttemptIsExact(init, l);
      TriesTheSame(Attempt(init, l), last);
    }
  }

  /** On 64-bit integers too, what was chosen replays to the scratch ledger, whatever wrapped on the way. */
  lemma {:induction false} ChosenRunsToScratchM(ops: seq<Op>, l: Ledger)
    ensures RunM(AttemptM(ops, l).chosen, l) == Ok(AttemptM(ops, l).scratch)
  {
    hide ApplyM;
    if ops != [] {
      var before := AttemptM(ops[..|ops| - 1], l);
      ChosenRunsToScratchM(ops[..|ops| - 1], l);
      RunMSnoc(before.chosen, ops[|ops| - 1], l);
    }
  }

  // ---------------------------------------------------------------------------------------------
  // Selection
  // ---------------------------------------------------------------------------------------------

  ghost predicate PicksM(queue: seq<Op>, n: nat, cap: int, l: Ledger, chosen: seq<Op>, dropIds: seq<TxID>,
                         scratch: Ledger)
  {
    && n <= |queue|
    && (n < |queue| ==> cap <= |AttemptM(queue[..n], l).chosen|)
    && (0 < n ==> |AttemptM(queue[..n - 1], l).chosen| < cap)
    && AttemptM(queue[..n], l).chosen == chosen
    && OpIds(AttemptM(queue[..n], l).dropped) == dropIds
    && AttemptM(queue[..n], l).scratch == scratch
  }

  /** What selectExecutable does on 64-bit integers. */
  ghost predicate SelectsM(q: Queues, max: nat, l: Ledger, picked: Picked, trace: Trace) {
    && PicksM(CreateOps(q.creates), trace.creates, max, l, CreateOps(picked.creates), picked.dropCreates, trace.created)
    && PicksM(PayOps(q.payments), trace.payments, max - |picked.creates|, trace.created,
              PayOps(picked.payments), picked.dropPayments, trace.paid)
    && PicksM(CloseOps(q.closes), trace.closes, max - |picked.creates| - |picked.payments|, trace.paid,
              CloseOps(picked.closes), picked.dropCloses, trace.scratch)
  }

  /** The replay of AppendBlock cannot differ from the selection it is sealed over, whatever wraps. */
  lemma MachineSelectionReplays(q: Queues, max: nat, l: Ledger, picked: Picked, trace: Trace)
    requires SelectsM(q, max, l, picked, trace)
    ensures RunM(PickedOps(picked), l) == Ok(trace.scratch)
  {
    hide AttemptM, RunM, OpIds;
    var creates, payments, closes := CreateOps(picked.creates), PayOps(picked.payments), CloseOps(picked.closes);
    ChosenRunsToScratchM(CreateOps(q.creates)[..trace.creates], l);
    ChosenRunsToScratchM(PayOps(q.payments)[..trace.payments], trace.created);
    ChosenRunsToScratchM(CloseOps(q.closes)[..trace.closes], trace.paid);
    RunMConcat(creates, payments, l);
    RunMConcat(creates + payments, closes, l);
  }

  lemma FitPrefix(ops: seq<Op>, n: nat, taxes: TaxTable)
    requires AllFit(ops, taxes) && n <= |ops|
    ensures AllFit(ops[..n], taxes)
  {
    hide Fits;
    forall i | 0 <= i < n && ops[..n][i].PayOp? ensures Fits(ops[..n][i].payment, taxes) {
      assert ops[..n][i] == ops[i];
    }
  }

  lemma PicksTheSame(queue: seq<Op>, n: nat, cap: int, l: Ledger, chosen: seq<Op>, dropIds: seq<TxID>, scratch: Ledger)
    requires SmallSupply(l) && AllFit(queue, l.taxes)
    ensures PicksM(queue, n, cap, l, chosen, dropIds, scratch) <==> Picks(queue, n, cap, l, chosen, dropIds, scratch)
    ensures Picks(queue, n, cap, l, chosen, dropIds, scratch) ==> SmallSupply(scratch) && scratch.taxes == l.taxes
  {
    hide Attempt, AttemptM, AllFit, SmallSupply, OpIds;
    if n <= |queue| {
      FitPrefix(queue, n, l.taxes);
      AttemptIsExact(queue[..n], l);
      if 0 < n {
        FitPrefix(queue, n - 1, l.taxes);
        AttemptIsExact(queue[..n - 1], l);
      }
    }
  }

  ghost predicate AllFits(pending: seq<Payment>, taxes: TaxTable) {
    forall i :: 0 <= i < |pending| ==> Fits(pending[i], taxes)
  }

  /** Under a money supply below 2^63, and with waiting payments whose totals fit, selection on 64-bit integers is
      selection, whatever creates and closes wait beside them. */
  lemma MachineSelectionIsSelection(q: Queues, max: nat, l: Ledger, picked: Picked, trace: Trace)
    requires SmallSupply(l) && AllFits(q.payments, l.taxes)
    ensures SelectsM(q, max, l, picked, trace) <==> Selects(q, max, l, picked, trace)
  {
    hide Picks, PicksM, SmallSupply, Fits;
    PicksTheSame(CreateOps(q.creates), trace.creates, max, l, CreateOps(picked.creates), picked.dropCreates,
                 trace.created);
    if Picks(CreateOps(q.creates), trace.creates, max, l, CreateOps(picked.creates), picked.dropCreates,
             trace.created)
    {
      PicksTheSame(PayOps(q.payments), trace.payments, max - |picked.creates|, trace.created,
                   PayOps(picked.payments), picked.dropPayments, trace.paid);
      if Picks(PayOps(q.payments), trace.payments, max - |picked.creates|, trace.created,
               PayOps(picked.payments), picked.dropPayments, trace.paid)
      {
        PicksTheSame(CloseOps(q.closes), trace.closes, max - |picked.creates| - |picked.payments|, trace.paid,
                     CloseOps(picked.closes), picked.dropCloses, trace.scratch);
      }
    }
  }

  // ---------------------------------------------------------------------------------------------
  // A covered pool
  // ---------------------------------------------------------------------------------------------

  lemma AdmissibleFits(tx: Payment, l: Ledger)
    requires NonNegativeRates(l.taxes) && Admissible(tx, l) && PaymentFits(tx, l.taxes)
    ensures Fits(tx, l.taxes)
  {
    hide ItemAllowed, ProductsFit;
    AllowedSplits(tx.items, l);
  }

  lemma SolventFits(pending: seq<Payment>, l: Ledger)
    requires Solvent(pending, l) && AllPaymentsFit(pending, l.taxes)
    ensures AllFits(pending, l.taxes)
  {
    hide PaymentFits, Fits, S.Covered, S.DistinctIds;
    SoundRates(l);
    forall i | 0 <= i < |pending| ensures Fits(pending[i], l.taxes) {
      AdmissibleFits(pending[i], l);
    }
  }

  /** From a covered pool of payments that fit, selection on 64-bit integers drops no payment and picks a prefix. */
  lemma MachineSelectionDropsNoPayment(q: Queues, max: nat, l: Ledger, picked: Picked, trace: Trace)
    requires SelectsM(q, max, l, picked, trace)
    requires Solvent(q.payments, l) && SmallSupply(l) && AllPaymentsFit(q.payments, l.taxes)
    ensures picked.dropPayments == [] && trace.payments <= |q.payments|
    ensures picked.payments == q.payments[..trace.payments]
  {
    hide SelectsM, Selects, SmallSupply, AllFits, AllPaymentsFit, Solvent, Run;
    SolventFits(q.payments, l);
    MachineSelectionIsSelection(q, max, l, picked, trace);
    SolventParts(q.payments, l);
    SelectionDropsNoPayment(q, max, l, picked, trace);
  }

  /** What becomes of one slot on 64-bit integers, where AppendBlock replays the picked operations. */
  ghost predicate SlotOutcomeM(before: Replica, q: Queues, after: Replica, left: Queues, block: Option<Block>,
                               picked: Picked, trace: Trace, max: nat, ioOk: bool,
                               validator: string, key: PrivateKey, now: Timestamp)
    requires before.chain != []
  {
    var replayed := RunM(PickedOps(picked), before.ledger);
    && SelectsM(q, max, before.ledger, picked, trace)
    && (block.Some? <==>
          0 < |PickedOps(picked)| && ioOk && Registered(validator, key, before.ledger) && replayed.Ok?)
    && (block.None? ==> after == before && left == WithoutDropped(q, picked))
    && (block.Some? ==>
          && block.value
             == SealedBlock(|before.chain|, before.chain[|before.chain| - 1],
                            picked.payments, picked.creates, picked.closes, validator, key, now)
          && after == Replica(before.chain + [block.value], replayed.value)
          && left == Bridge.WithoutBlock(WithoutDropped(q, picked), block.value))
  }

  /** Then the slot is the slot on unbounded integers. */
  lemma MachineSlotIsSlot(before: Replica, q: Queues, after: Replica, left: Queues, block: Option<Block>,
                          picked: Picked, trace: Trace, max: nat, ioOk: bool,
                          validator: string, key: PrivateKey, now: Timestamp)
    requires before.chain != [] && SmallSupply(before.ledger) && AllFits(q.payments, before.ledger.taxes)
    ensures SlotOutcomeM(before, q, after, left, block, picked, trace, max, ioOk, validator, key, now) <==>
            Bridge.SlotOutcome(before, q, after, left, block, picked, trace, max, ioOk, validator, key, now)
  {
    hide SelectsM, Selects, SmallSupply, AllFits, RunM, PickedOps, WithoutDropped, SealedBlock, Bridge.WithoutBlock;
    MachineSelectionIsSelection(q, max, before.ledger, picked, trace);
    if SelectsM(q, max, before.ledger, picked, trace) {
      MachineSelectionReplays(q, max, before.ledger, picked, trace);
    }
  }

  /** A slot on 64-bit integers keeps a pool of payments that fit solvent: none is dropped, a prefix goes into the
      block, and what is left is covered by the ledger the slot leaves behind. */
  lemma MachineSlotStaysSolvent(before: Replica, q: Queues, after: Replica, left: Queues, block: Option<Block>,
                                picked: Picked, trace: Trace, max: nat, ioOk: bool,
                                validator: string, key: PrivateKey, now: Timestamp)
    requires before.chain != []
    requires SlotOutcomeM(before, q, after, left, block, picked, trace, max, ioOk, validator, key, now)
    requires q.closes == [] && Solvent(q.payments, before.ledger)
    requires SmallSupply(before.ledger) && AllPaymentsFit(q.payments, before.ledger.taxes)
    ensures picked.dropPayments == [] && trace.payments <= |q.payments|
    ensures left.payments == if block.Some? then q.payments[trace.payments..] else q.payments
    ensures left.closes == [] && Solvent(left.payments, after.ledger)
  {
    hide SlotOutcomeM, Bridge.SlotOutcome, Solvent, SmallSupply, AllFits, AllPaymentsFit;
    SolventFits(q.payments, before.ledger);
    MachineSlotIsSlot(before, q, after, left, block, picked, trace, max, ioOk, validator, key, now);
    SlotStaysSolvent(before, q, after, left, block, picked, trace, max, ioOk, validator, key, now);
  }

  lemma SolventInv(pending: seq<Payment>, l: Ledger)
    requires Solvent(pending, l)
    ensures S.Inv(S.Node(l, pending, S.Idle))
  {
  }

  /** So does the 64-bit admission of any payment that fits, or its rejection. */
  lemma MachineAdmissionStaysSolvent(pending: seq<Payment>, l: Ledger, tx: Payment)
    requires Solvent(pending, l) && SmallSupply(l) && AllPaymentsFit(pending, l.taxes) && PaymentFits(tx, l.taxes)
    ensures var after := AdmitTo(pending, tx, PaymentId, CheckAdmitM(tx, l, PendingGrossM(pending, tx.payer.id)));
            Solvent(after, l) && AllPaymentsFit(after, l.taxes)
  {
    hide CheckAdmitM, Admission.CheckAdmit, Solvent, TotalsFit, InputFits, SmallSupply;
    SolventInv(pending, l);
    ReservationFits(S.Node(l, pending, S.Idle), tx.payer.id);
    AdmissionIsExactIff(tx, l, PendingGross(pending, tx.payer.id));
    AdmissionStaysSolvent(pending, l, tx);
  }
}
