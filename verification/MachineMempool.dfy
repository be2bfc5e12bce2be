/** The admission checks and the solvency runs on 64-bit integers: when they are those on unbounded integers. */
module MachineMempool {
  import opened Domain
  import opened LedgerRules
  import opened LedgerEffects
  import opened Mempool
  import opened Admission
  import opened MachineInts
  import opened MachineMoney
  import S = Solvency

  // ---------------------------------------------------------------------------------------------
  // Which payments fit
  // ---------------------------------------------------------------------------------------------

  /** A payment whose fields and products are 64-bit integers. */
  ghost predicate InputFits(tx: Payment, taxes: TaxTable) { Int64Fields(tx.items) && ProductsFit(tx.items, taxes) }

  /** ... and whose gross, and taxes and discounts together, stay below 2^63. */
  ghost predicate PaymentFits(tx: Payment, taxes: TaxTable) { InputFits(tx, taxes) && TotalsFit(tx, taxes) }

  ghost predicate AllInputsFit(pending: seq<Payment>, taxes: TaxTable) {
    forall i :: 0 <= i < |pending| ==> InputFits(pending[i], taxes)
  }

  ghost predicate AllPaymentsFit(pending: seq<Payment>, taxes: TaxTable) {
    forall i :: 0 <= i < |pending| ==> PaymentFits(pending[i], taxes)
  }

  /** A ledger with a money supply that is a 64-bit integer. */
  ghost predicate SmallSupply(l: Ledger) { Sound(l) && Supply(l.accounts) < TWO_63 }

  lemma SmallBalances(l: Ledger, a: AccountID)
    requires SmallSupply(l)
    ensures 0 <= BalanceOf(l.accounts, a) < TWO_63
  {
    SupplyBounds(l.accounts);
  }

  lemma PaymentIsExactIff(tx: Payment, l: Ledger)
    requires SmallSupply(l) && InputFits(tx, l.taxes)
    ensures Apply(PayOp(tx), l).Ok? ==> ApplyM(PayOp(tx), l) == Apply(PayOp(tx), l) && TotalsFit(tx, l.taxes)
    ensures ApplyM(PayOp(tx), l).Ok? && TotalsFit(tx, l.taxes) ==> ApplyM(PayOp(tx), l) == Apply(PayOp(tx), l)
  {
    hide ApplyM, Apply, TotalsFit, Supply, Int64Fields, ProductsFit;
    ApplyIsExactIff(PayOp(tx), l);
  }

  lemma AcceptedApplies(tx: Payment, l: Ledger)
    ensures CheckPaymentM(tx, l) == Accepted <==> ApplyM(PayOp(tx), l).Ok?
    ensures CheckPayment(tx, l) == Accepted <==> Apply(PayOp(tx), l).Ok?
  {
    hide CheckPaymentM, CheckPayment;
  }

  // ---------------------------------------------------------------------------------------------
  // The counters
  // ---------------------------------------------------------------------------------------------

  function PendingGrossM(pending: seq<Payment>, payer: AccountID): int {
    if pending == [] then 0 else
      var init, last := pending[..|pending| - 1], pending[|pending| - 1];
      if last.payer.id == payer then Wrap(PendingGrossM(init, payer) + GrossM(last.items))
      else PendingGrossM(init, payer)
  }

  /** What is reserved is the exact pending gross wrapped once, so it is exact if and only if that fits. */
  lemma {:induction false} PendingGrossWraps(pending: seq<Payment>, payer: AccountID, taxes: TaxTable)
    requires AllInputsFit(pending, taxes)
    ensures PendingGrossM(pending, payer) == Wrap(PendingGross(pending, payer))
  {
    hide Wrap, ProductsFit;
    if pending != [] {
      var init, last := pending[..|pending| - 1], pending[|pending| - 1];
      assert InputFits(last, taxes);
      PendingGrossWraps(init, payer, taxes);
      GrossWraps(last.items);
      WrapSum(PendingGross(init, payer), Gross(last));
    } else {
      assert Wrap(0) == 0;
    }
  }

  function ReserveM(reserved: Counters, tx: Payment): Counters {
    reserved[tx.payer.id := Wrap(Counter(reserved, tx.payer.id) + GrossM(tx.items))]
  }

  function ReleasedM(reserved: Counters, tx: Payment): Counters {
    var left := Wrap(Counter(reserved, tx.payer.id) - GrossM(tx.items));
    if left <= 0 then reserved - {tx.payer.id} else reserved[tx.payer.id := left]
  }

  /** As long as a payer's counter fits with the payment in it, reserving and releasing do not wrap. */
  lemma CountersAreExact(reserved: Counters, tx: Payment)
    requires Int64Fields(tx.items) && 0 <= Gross(tx) < TWO_63
    requires 0 <= Counter(reserved, tx.payer.id) < TWO_63
    ensures ReleasedM(reserved, tx) == Released(reserved, tx)
    ensures ReserveM(reserved, tx) == Reserve(reserved, tx) <==> Counter(reserved, tx.payer.id) + Gross(tx) < TWO_63
  {
    GrossWraps(tx.items);
    assert ReserveM(reserved, tx)[tx.payer.id] == Wrap(Counter(reserved, tx.payer.id) + Gross(tx));
    assert Reserve(reserved, tx)[tx.payer.id] == Counter(reserved, tx.payer.id) + Gross(tx);
  }

  // ---------------------------------------------------------------------------------------------
  // Admission
  // ---------------------------------------------------------------------------------------------

  /** The fast check on 64-bit integers: the subtraction of the reservation wraps like everything else. */
  function CheckAdmitM(tx: Payment, l: Ledger, reserved: int): Outcome {
    CheckPaymentM(tx, if tx.payer.id in l.accounts then l.(accounts := CreditM(l.accounts, tx.payer.id, -reserved))
                  else l)
  }

  /** What the fast check admits on 64-bit integers. */
  lemma AdmittedMIff(tx: Payment, l: Ledger, reserved: int)
    requires Int64Fields(tx.items)
    ensures CheckAdmitM(tx, l, reserved) == Accepted <==>
            && WellFormedM(tx, l)
            && 0 <= NetM(tx, l.taxes)
            && tx.payer.id in l.accounts
            && 0 < GrossM(tx.items) <= Wrap(l.accounts[tx.payer.id].balance - reserved)
            && tx.payer.id in l.keys && Crypto.Verify(l.keys[tx.payer.id], Crypto.PaymentBytes(tx), tx.signature)
  {
    hide CheckPaymentM, Wrap, GrossM, NetM, Crypto.Verify, Crypto.PaymentBytes;
    var m := if tx.payer.id in l.accounts then l.(accounts := CreditM(l.accounts, tx.payer.id, -reserved)) else l;
    MachineAcceptedIff(tx, m);
    assert forall item :: ItemAllowed(item, l) <==> ItemAllowed(item, m);
  }

  lemma DebitedIsSmall(l: Ledger, payer: AccountID, reserved: int)
    requires SmallSupply(l) && 0 <= reserved <= BalanceOf(l.accounts, payer)
    ensures SmallSupply(l.(accounts := Credit(l.accounts, payer, -reserved)))
    ensures CreditM(l.accounts, payer, -reserved) == Credit(l.accounts, payer, -reserved)
  {
    SmallBalances(l, payer);
    CreditSupply(l.accounts, payer, -reserved);
    CreditInRange(l.accounts, payer, -reserved);
  }

  lemma OverdrawnIsRejected(tx: Payment, l: Ledger, reserved: int)
    requires SmallSupply(l) && Int64Fields(tx.items) && BalanceOf(l.accounts, tx.payer.id) < reserved < TWO_63
    ensures CheckAdmitM(tx, l, reserved) != Accepted && CheckAdmit(tx, l, reserved) != Accepted
  {
    hide CheckAdmitM, CheckAdmit, WellFormedM, NetM, GrossM;
    SmallBalances(l, tx.payer.id);
    AdmittedMIff(tx, l, reserved);
    AdmittedIff(tx, l, reserved);
    PaymentAcceptedIff(tx, l);
  }

  /** What the unbounded fast check admits, the 64-bit one admits; what the 64-bit one admits, the unbounded one does if
      and only if the payment's totals fit. */
  lemma AdmissionIsExactIff(tx: Payment, l: Ledger, reserved: int)
    requires SmallSupply(l) && InputFits(tx, l.taxes) && 0 <= reserved < TWO_63
    ensures CheckAdmit(tx, l, reserved) == Accepted ==>
              CheckAdmitM(tx, l, reserved) == Accepted && TotalsFit(tx, l.taxes)
    ensures CheckAdmitM(tx, l, reserved) == Accepted && TotalsFit(tx, l.taxes) ==>
              CheckAdmit(tx, l, reserved) == Accepted
  {
    hide CheckPaymentM, CheckPayment, TotalsFit, SmallSupply, Int64Fields, ProductsFit, Apply, ApplyM;
    if BalanceOf(l.accounts, tx.payer.id) < reserved {
      OverdrawnIsRejected(tx, l, reserved);
    } else {
      var m := if tx.payer.id in l.accounts then l.(accounts := Credit(l.accounts, tx.payer.id, -reserved)) else l;
      DebitedIsSmall(l, tx.payer.id, reserved);
      PaymentIsExactIff(tx, m);
      AcceptedApplies(tx, m);
    }
  }

  function ReplayedM(pending: seq<Payment>, l: Ledger): Ledger {
    if pending == [] then l else
      var before := ReplayedM(pending[..|pending| - 1], l);
      var next := ApplyM(PayOp(pending[|pending| - 1]), before);
      if next.Ok? then next.value else before
  }

  function CheckPendingWithM(tx: Payment, pending: seq<Payment>, l: Ledger): Outcome {
    CheckPaymentM(tx, ReplayedM(pending, l))
  }

  /** Replaying pending payments that fit, failures skipped, is the same on both kinds of integers. */
  lemma {:induction false} ReplayIsExact(pending: seq<Payment>, l: Ledger)
    requires SmallSupply(l) && AllPaymentsFit(pending, l.taxes)
    ensures ReplayedM(pending, l) == Replayed(pending, l)
    ensures SmallSupply(Replayed(pending, l)) && Replayed(pending, l).taxes == l.taxes
  {
    hide Apply, ApplyM, InputFits, TotalsFit, Supply, Sound;
    if pending != [] {
      var init, last := pending[..|pending| - 1], pending[|pending| - 1];
      ReplayIsExact(init, l);
      var before := Replayed(init, l);
      assert PaymentFits(last, l.taxes);
      PaymentIsExactIff(last, before);
      if Apply(PayOp(last), before).Ok? {
        ApplyConserves(PayOp(last), before);
        PaidKeepsTaxes(last, before);
      }
    }
  }

  lemma PaidKeepsTaxes(tx: Payment, l: Ledger)
    requires Apply(PayOp(tx), l).Ok?
    ensures Apply(PayOp(tx), l).value.taxes == l.taxes
  {
  }

  /** Fast admission refines slow admission on 64-bit integers, if the payment and the pending ones fit, and so does the
      payer's counter. */
  lemma MachineFastAdmissionRefinesSlow(tx: Payment, pending: seq<Payment>, order: seq<Payment>, l: Ledger)
    requires SmallSupply(l) && GrossNonNegative(pending) && multiset(order) == multiset(pending)
    requires PaymentFits(tx, l.taxes) && AllPaymentsFit(pending, l.taxes) && PendingGross(pending, tx.payer.id) < TWO_63
    requires CheckAdmitM(tx, l, PendingGrossM(pending, tx.payer.id)) == Accepted
    ensures CheckPendingWithM(tx, order, l) == Accepted
  {
    hide CheckAdmit, CheckAdmitM, CheckPaymentM, CheckPayment, Apply, ApplyM, InputFits, TotalsFit, Supply, Replayed,
      ReplayedM;
    PendingGrossNonNegative(pending, tx.payer.id);
    FittingInputsFit(pending, l.taxes);
    PendingGrossWraps(pending, tx.payer.id, l.taxes);
    AdmissionIsExactIff(tx, l, PendingGross(pending, tx.payer.id));
    FastAdmissionRefinesSlow(tx, pending, order, l);
    forall i | 0 <= i < |order| ensures PaymentFits(order[i], l.taxes) {
      assert order[i] in multiset(order);
      assert order[i] in pending;
    }
    ReplayIsExact(order, l);
    AcceptedApplies(tx, Replayed(order, l));
    PaymentIsExactIff(tx, Replayed(order, l));
  }

  lemma FittingInputsFit(pending: seq<Payment>, taxes: TaxTable)
    requires AllPaymentsFit(pending, taxes)
    ensures AllInputsFit(pending, taxes)
  {
    hide InputFits, TotalsFit;
    forall i | 0 <= i < |pending| ensures InputFits(pending[i], taxes) {
      assert PaymentFits(pending[i], taxes);
    }
  }

  /** A payment that fits and applies takes from its payer at most its gross and from nobody else anything. */
  lemma MachinePaymentIsGentle(op: Payment, l: Ledger, a: AccountID)
    requires SmallSupply(l) && PaymentFits(op, l.taxes) && ApplyM(PayOp(op), l).Ok?
    ensures BalanceOf(ApplyM(PayOp(op), l).value.accounts, a)
            >= BalanceOf(l.accounts, a) - if a == op.payer.id then GrossM(op.items) else 0
  {
    hide Apply, ApplyM, ProductsFit, Supply, GrossM;
    PaymentIsExactIff(op, l);
    PaymentIsGentle(op, l, op);
    GrossWraps(op.items);
    AcceptedApplies(op, l);
    PaymentAcceptedIff(op, l);
  }

  // ---------------------------------------------------------------------------------------------
  // Whole runs
  // ---------------------------------------------------------------------------------------------

  ghost predicate AdmitM(s: S.Node, t: S.Node, tx: Payment) {
    && !s.phase.Appended?
    && tx.id !in S.Ids(s.pending)
    && CheckAdmitM(tx, s.ledger, PendingGrossM(s.pending, tx.payer.id)) == Accepted
    && t == s.(pending := s.pending + [tx])
  }

  ghost predicate BeginM(s: S.Node, t: S.Node, creates: seq<AccountCreate>) {
    && s.phase == S.Idle
    && RunM(CreateOps(creates), s.ledger).Ok?
    && t == s.(phase := S.Started(RunM(CreateOps(creates), s.ledger).value, creates))
  }

  ghost predicate PickM(s: S.Node, t: S.Node, max: int) {
    && S.MayTry(s, max)
    && var tx := s.phase.peeked[s.phase.next];
    && ApplyM(PayOp(tx), s.phase.scratch).Ok?
    && t == s.(phase := s.phase.(scratch := ApplyM(PayOp(tx), s.phase.scratch).value,
                                 next := s.phase.next + 1, chosen := s.phase.chosen + [tx]))
  }

  ghost predicate DropM(s: S.Node, t: S.Node, max: int) {
    && S.MayTry(s, max)
    && var tx := s.phase.peeked[s.phase.next];
    && ApplyM(PayOp(tx), s.phase.scratch).Err?
    && t == s.(phase := s.phase.(next := s.phase.next + 1, dropped := s.phase.dropped + [tx]))
  }

  ghost predicate AppendM(s: S.Node, t: S.Node) {
    && s.phase.Sealed?
    && var r := RunM(S.BlockBody(s.phase.creates, s.phase.chosen), s.ledger);
    && r.Ok?
    && t == s.(ledger := r.value, phase := S.Appended(s.phase.chosen))
  }

  // Peek, seal, abandon and release do no arithmetic.
  ghost predicate StepM(s: S.Node, t: S.Node, max: int) {
    || (exists tx :: AdmitM(s, t, tx))
    || (exists creates :: BeginM(s, t, creates))
    || S.Peek(s, t) || PickM(s, t, max) || DropM(s, t, max) || S.Seal(s, t, max)
    || AppendM(s, t) || S.Abandon(s, t) || S.Release(s, t)
  }

  ghost predicate StepMAt(run: seq<S.Node>, i: int, max: int) {
    0 <= i < |run| - 1 && StepM(run[i], run[i + 1], max)
  }

  ghost predicate IsRunM(run: seq<S.Node>, max: int) {
    && run != []
    && S.Start(run[0])
    && forall i :: 0 <= i < |run| - 1 ==> StepMAt(run, i, max)
  }

  lemma {:induction false} CreatesRunTheSame(txs: seq<AccountCreate>, l: Ledger)
    ensures RunM(CreateOps(txs), l) == Run(CreateOps(txs), l)
  {
    hide Apply;
    if txs != [] {
      assert CreateOps(txs)[..|txs| - 1] == CreateOps(txs[..|txs| - 1]);
      CreatesRunTheSame(txs[..|txs| - 1], l);
    }
  }

  lemma BodyFits(creates: seq<AccountCreate>, txs: seq<Payment>, taxes: TaxTable)
    requires AllPaymentsFit(txs, taxes)
    ensures InputsFit(S.BlockBody(creates, txs), taxes)
  {
    hide TotalsFit, Int64Fields, ProductsFit;
    var ops := S.BlockBody(creates, txs);
    forall i | 0 <= i < |ops| && ops[i].PayOp?
      ensures Int64Fields(ops[i].payment.items) && ProductsFit(ops[i].payment.items, taxes)
    {
      assert i >= |creates| && ops[i] == PayOp(txs[i - |creates|]);
      assert PaymentFits(txs[i - |creates|], taxes);
    }
  }

  // What the refinement rests on: Solvency's invariant, a small supply, and pending payments that fit.
  ghost predicate InvM(s: S.Node) {
    S.Inv(s) && SmallSupply(s.ledger) && AllPaymentsFit(s.pending, s.ledger.taxes)
  }

  lemma PrefixFits(pending: seq<Payment>, prefix: seq<Payment>, taxes: TaxTable)
    requires prefix <= pending && AllPaymentsFit(pending, taxes)
    ensures AllPaymentsFit(prefix, taxes)
  {
    forall i | 0 <= i < |prefix| ensures PaymentFits(prefix[i], taxes) {
      assert PaymentFits(pending[i], taxes);
    }
  }

  lemma ReservationFits(s: S.Node, payer: AccountID)
    requires InvM(s) && !s.phase.Appended?
    ensures 0 <= PendingGross(s.pending, payer) < TWO_63
    ensures PendingGrossM(s.pending, payer) == PendingGross(s.pending, payer)
  {
    hide S.AllAdmissible, AllPaymentsFit;
    S.AdmissibleGrossNonNegative(s.pending, s.ledger);
    PendingGrossNonNegative(s.pending, payer);
    SmallBalances(s.ledger, payer);
    FittingInputsFit(s.pending, s.ledger.taxes);
    PendingGrossWraps(s.pending, payer, s.ledger.taxes);
  }

  lemma AdmitIsExact(s: S.Node, t: S.Node, tx: Payment)
    requires InvM(s) && AdmitM(s, t, tx) && PaymentFits(tx, s.ledger.taxes)
    ensures S.Admit(s, t, tx)
  {
    hide CheckAdmit, CheckAdmitM, S.Inv, SmallSupply, InputFits, TotalsFit;
    ReservationFits(s, tx.payer.id);
    AdmissionIsExactIff(tx, s.ledger, PendingGross(s.pending, tx.payer.id));
  }

  lemma ScratchIsSmall(s: S.Node)
    requires InvM(s) && s.phase.Selecting?
    ensures SmallSupply(s.phase.scratch) && s.phase.scratch.taxes == s.ledger.taxes
  {
    hide S.BlockBody, Supply, S.Covered, S.AllAdmissible, AllPaymentsFit;
    var body := S.BlockBody(s.phase.creates, s.phase.chosen);
    RunConserves(body, s.ledger);
    RunFrame(body, s.ledger);
  }

  /** Whatever selection tries next applies on its scratch ledger on 64-bit integers too, and identically. */
  lemma MachineNextIsExecutable(s: S.Node, max: int)
    requires InvM(s) && S.MayTry(s, max)
    ensures var op := PayOp(s.phase.peeked[s.phase.next]);
            ApplyM(op, s.phase.scratch).Ok? && ApplyM(op, s.phase.scratch) == Apply(op, s.phase.scratch)
  {
    hide Apply, ApplyM, InputFits, TotalsFit, SmallSupply, S.Covered, S.AllAdmissible, Run;
    ScratchIsSmall(s);
    S.NextIsExecutable(s, max);
    assert s.phase.peeked[s.phase.next] == s.pending[s.phase.next];
    assert PaymentFits(s.pending[s.phase.next], s.ledger.taxes);
    PaymentIsExactIff(s.phase.peeked[s.phase.next], s.phase.scratch);
  }

  lemma AppendIsExact(s: S.Node, t: S.Node)
    requires InvM(s) && AppendM(s, t)
    ensures S.Append(s, t)
  {
    hide Run, RunM, S.BlockBody, Supply, Sound, S.Covered, S.AllAdmissible, AllPaymentsFit;
    PrefixFits(s.pending, s.phase.chosen, s.ledger.taxes);
    BodyFits(s.phase.creates, s.phase.chosen, s.ledger.taxes);
    RunIsExactIff(S.BlockBody(s.phase.creates, s.phase.chosen), s.ledger);
  }

  /** Every 64-bit step between states whose pending payments fit is a step on unbounded integers, and none drops. */
  lemma StepIsExact(s: S.Node, t: S.Node, max: int)
    requires InvM(s) && StepM(s, t, max) && AllPaymentsFit(t.pending, s.ledger.taxes)
    ensures S.Step(s, t, max) && !DropM(s, t, max)
  {
    hide S.Peek, S.Seal, S.Abandon, S.Release, InvM, S.Append, Apply, ApplyM, Run, RunM, CheckAdmit, CheckAdmitM,
      PaymentFits;
    if S.MayTry(s, max) {
      MachineNextIsExecutable(s, max);
    }
    if tx :| AdmitM(s, t, tx) {
      assert t.pending[|s.pending|] == tx;
      AdmitIsExact(s, t, tx);
    } else if creates :| BeginM(s, t, creates) {
      CreatesRunTheSame(creates, s.ledger);
      assert S.Begin(s, t, creates);
    } else if PickM(s, t, max) {
      assert S.Pick(s, t, max);
    } else if AppendM(s, t) {
      AppendIsExact(s, t);
    }
  }

  lemma StepKeepsSupply(s: S.Node, t: S.Node, max: int)
    requires S.Inv(s) && S.Step(s, t, max)
    ensures Supply(t.ledger.accounts) == Supply(s.ledger.accounts) && t.ledger.taxes == s.ledger.taxes
  {
    hide S.Admit, S.Begin, S.Peek, S.Pick, S.Drop, S.Seal, S.Abandon, S.Release, S.PhaseOk, Supply, S.BlockBody;
    if S.Append(s, t) {
      RunConserves(S.BlockBody(s.phase.creates, s.phase.chosen), s.ledger);
      RunFrame(S.BlockBody(s.phase.creates, s.phase.chosen), s.ledger);
    } else {
      OnlyAppendWrites(s, t, max);
    }
  }

  lemma OnlyAppendWrites(s: S.Node, t: S.Node, max: int)
    requires S.Step(s, t, max) && !S.Append(s, t)
    ensures t.ledger == s.ledger
  {
    hide CheckAdmit, Apply, Run, Without;
  }

  /** Every payment ever admitted in the run fits the taxes the node was started with. */
  ghost predicate AdmitsFit(run: seq<S.Node>) {
    run != [] && forall i :: 0 <= i < |run| ==> AllPaymentsFit(run[i].pending, run[0].ledger.taxes)
  }

  ghost predicate AdmitsInputsFit(run: seq<S.Node>) {
    run != [] && forall i :: 0 <= i < |run| ==> AllInputsFit(run[i].pending, run[0].ledger.taxes)
  }

  ghost predicate StepAt(run: seq<S.Node>, i: int, max: int) {
    0 <= i < |run| - 1 && S.Step(run[i], run[i + 1], max)
  }

  lemma {:induction false} RunIsExactUpTo(run: seq<S.Node>, max: int, i: nat)
    requires IsRunM(run, max) && SmallSupply(run[0].ledger) && AdmitsFit(run) && i < |run|
    ensures InvM(run[i]) && run[i].ledger.taxes == run[0].ledger.taxes
    ensures forall k :: 0 <= k < i ==> StepAt(run, k, max) && !DropM(run[k], run[k + 1], max)
  {
    hide S.Step, StepM, S.Inv, DropM, Supply, Sound, S.Start, AllPaymentsFit;
    assert AllPaymentsFit(run[i].pending, run[0].ledger.taxes);
    if i == 0 {
      StartsSolvent(run[0]);
    } else {
      RunIsExactUpTo(run, max, i - 1);
      assert StepMAt(run, i - 1, max);
      StepIsExact(run[i - 1], run[i], max);
      S.StepKeeps(run[i - 1], run[i], max);
      StepKeepsSupply(run[i - 1], run[i], max);
      InvIsSound(run[i]);
    }
  }

  lemma StartsSolvent(s: S.Node)
    requires S.Start(s)
    ensures S.Inv(s)
  {
    forall payer ensures 0 <= BalanceOf(s.ledger.accounts, payer) {
    }
  }

  lemma InvIsSound(s: S.Node)
    requires S.Inv(s)
    ensures Sound(s.ledger)
  {
  }

  lemma StepsAreRun(run: seq<S.Node>, max: int)
    requires run != [] && S.Start(run[0]) && forall k :: 0 <= k < |run| - 1 ==> StepAt(run, k, max)
    ensures S.IsRun(run, max)
  {
    hide S.Step, S.Start;
    forall k | 0 <= k < |run| - 1 ensures S.Step(run[k], run[k + 1], max) {
      assert StepAt(run, k, max);
    }
  }

  /** Solvency on 64-bit integers: with a money supply below 2^63 and admitted payments that fit, every reservation the
      pool can hand to an admission check is exact and covered by the confirmed balance, and selection never drops an
      admitted payment. */
  lemma MachineMempoolStaysSolvent(run: seq<S.Node>, max: int, i: nat, payer: AccountID)
    requires IsRunM(run, max) && SmallSupply(run[0].ledger) && AdmitsFit(run) && i < |run|
    ensures S.IsRun(run, max)
    ensures !run[i].phase.Appended? ==>
              && PendingGrossM(run[i].pending, payer) == PendingGross(run[i].pending, payer)
              && 0 <= PendingGrossM(run[i].pending, payer) <= BalanceOf(run[i].ledger.accounts, payer)
    ensures i + 1 < |run| ==> !DropM(run[i], run[i + 1], max)
    ensures run[i].phase.Selecting? ==> run[i].phase.dropped == []
  {
    hide S.Step, StepM, S.Inv, DropM, SmallSupply, S.Start, AllPaymentsFit, PendingGross, PendingGrossM;
    RunIsExactUpTo(run, max, |run| - 1);
    StepsAreRun(run, max);
    RunIsExactUpTo(run, max, i);
    S.MempoolStaysSolvent(run, max, i);
    if !run[i].phase.Appended? {
      ReservationFits(run[i], payer);
    }
    if i + 1 < |run| {
      assert StepAt(run, i, max);
    }
  }

  lemma AdmittedTotalsFit(s: S.Node, i: nat)
    requires S.Inv(s) && SmallSupply(s.ledger) && !s.phase.Appended? && i < |s.pending|
    ensures TotalsFit(s.pending[i], s.ledger.taxes)
  {
    hide Supply, Sound;
    var before, tx, rest := s.pending[..i], s.pending[i], s.pending[i + 1..];
    assert s.pending == before + [tx] + rest;
    S.CoveredSplit(before, tx, rest, s.ledger);
    S.AdmissibleGrossNonNegative(s.pending, s.ledger);
    forall k | 0 <= k < |before| ensures 0 <= Gross(before[k]) {
      assert before[k] == s.pending[k];
    }
    PendingGrossNonNegative(before, tx.payer.id);
    PaymentAcceptedIff(tx, s.ledger);
    SmallBalances(s.ledger, tx.payer.id);
  }

  /** The other direction: with products in range, a 64-bit run is a run on unbounded integers if and only if every
      admitted payment's gross, and its taxes and discounts together, stay below 2^63. */
  lemma MachineRunIsRunIff(run: seq<S.Node>, max: int)
    requires IsRunM(run, max) && SmallSupply(run[0].ledger) && AdmitsInputsFit(run)
    ensures S.IsRun(run, max) <==> AdmitsFit(run)
  {
    hide S.Step, StepM, S.Inv, SmallSupply, S.Start, DropM, InputFits, TotalsFit;
    if AdmitsFit(run) {
      RunIsExactUpTo(run, max, |run| - 1);
      StepsAreRun(run, max);
    }
    if S.IsRun(run, max) {
      forall i, k | 0 <= i < |run| && 0 <= k < |run[i].pending|
        ensures PaymentFits(run[i].pending[k], run[0].ledger.taxes)
      {
        assert AllInputsFit(run[i].pending, run[0].ledger.taxes);
        assert InputFits(run[i].pending[k], run[0].ledger.taxes);
        EveryPendingFits(run, max, i, k);
      }
    }
  }

  lemma {:induction false} RunKeepsSupply(run: seq<S.Node>, max: int, i: nat)
    requires S.IsRun(run, max) && i < |run|
    ensures S.Inv(run[i]) && run[i].ledger.taxes == run[0].ledger.taxes
    ensures Supply(run[i].ledger.accounts) == Supply(run[0].ledger.accounts)
  {
    hide S.Step, S.Inv, Supply, S.Start;
    S.RunKeeps(run, max, i);
    if i > 0 {
      RunKeepsSupply(run, max, i - 1);
      assert S.Step(run[i - 1], run[i - 1 + 1], max);
      StepKeepsSupply(run[i - 1], run[i], max);
    }
  }

  // Whatever is pending between append and release was pending before the append.
  lemma EveryPendingFits(run: seq<S.Node>, max: int, i: nat, k: nat)
    requires S.IsRun(run, max) && SmallSupply(run[0].ledger) && i < |run| && k < |run[i].pending|
    ensures TotalsFit(run[i].pending[k], run[0].ledger.taxes)
  {
    hide S.Step, S.Inv, Supply, Sound, S.Start, TotalsFit;
    RunKeepsSupply(run, max, i);
    InvIsSound(run[i]);
    if run[i].phase.Appended? {
      StartIsIdle(run[0]);
      assert S.Step(run[i - 1], run[i - 1 + 1], max);
      BeforeAppended(run[i - 1], run[i], max);
      RunKeepsSupply(run, max, i - 1);
      InvIsSound(run[i - 1]);
      AdmittedTotalsFit(run[i - 1], k);
    } else {
      AdmittedTotalsFit(run[i], k);
    }
  }

  lemma StartIsIdle(s: S.Node)
    requires S.Start(s)
    ensures s.phase == S.Idle
  {
  }

  lemma BeforeAppended(s: S.Node, t: S.Node, max: int)
    requires S.Step(s, t, max) && t.phase.Appended?
    ensures !s.phase.Appended? && s.pending == t.pending
  {
    hide CheckAdmit, Apply, Run, Without;
  }
}
