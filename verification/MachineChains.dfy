/** Replay of whole chains on 64-bit integers. */
module MachineChains {
  import opened Domain
  import opened LedgerRules
  import opened LedgerEffects
  import opened ChainRules
  import opened MachineInts
  import opened MachineMoney

  lemma RunMSnoc(ops: seq<Op>, op: Op, l: Ledger)
    ensures RunM(ops + [op], l) == if RunM(ops, l).Err? then RunM(ops, l) else ApplyM(op, RunM(ops, l).value)
  {
    assert (ops + [op])[..|ops|] == ops;
  }

  lemma {:induction false} RunMConcat(a: seq<Op>, b: seq<Op>, l: Ledger)
    ensures RunM(a + b, l) == if RunM(a, l).Err? then RunM(a, l) else RunM(b, RunM(a, l).value)
  {
    hide ApplyM;
    if b == [] {
      assert a + b == a;
    } else {
      RunMConcat(a, b[..|b| - 1], l);
      assert (a + b)[..|a + b| - 1] == a + b[..|b| - 1];
    }
  }

  lemma ApplyMFrame(op: Op, l: Ledger)
    requires ApplyM(op, l).Ok?
    ensures ApplyM(op, l).value.validators == l.validators
  {
  }

  lemma {:induction false} RunMFrame(ops: seq<Op>, l: Ledger)
    requires RunM(ops, l).Ok?
    ensures RunM(ops, l).value.validators == l.validators
  {
    hide ApplyM;
    if ops != [] {
      RunMFrame(ops[..|ops| - 1], l);
      ApplyMFrame(ops[|ops| - 1], RunM(ops[..|ops| - 1], l).value);
    }
  }

  function CheckBlockM(b: Block, prev: Block, l: Ledger): Result<Ledger> {
    var header := CheckHeader(b, prev, l.validators);
    if header.Rejected? then Err(header.error) else RunM(BlockOps(b), l)
  }

  function ReplayM(blocks: seq<Block>, l: Ledger): Result<Ledger>
    requires blocks != []
  {
    if |blocks| == 1 then Ok(l) else
      var before := ReplayM(blocks[..|blocks| - 1], l);
      if before.Err? then before else CheckBlockM(blocks[|blocks| - 1], blocks[|blocks| - 2], before.value)
  }

  /** Headers do no arithmetic: replay splits into their checks and the 64-bit run of all operations. */
  lemma {:induction false} ReplayMIsRun(blocks: seq<Block>, l: Ledger)
    requires blocks != []
    ensures ReplayM(blocks, l).Ok? <==> Linked(blocks, l.validators) && RunM(ChainOps(blocks), l).Ok?
    ensures ReplayM(blocks, l).Ok? ==> ReplayM(blocks, l) == RunM(ChainOps(blocks), l)
  {
    hide CheckHeader, ApplyM, BlockOps, Linked;
    if |blocks| == 1 {
      NoLinks(blocks, l.validators);
    } else {
      var init, last := blocks[..|blocks| - 1], blocks[|blocks| - 1];
      ReplayMIsRun(init, l);
      LinkedLast(blocks, l.validators);
      RunMConcat(ChainOps(init), BlockOps(last), l);
      if RunM(ChainOps(init), l).Ok? {
        RunMFrame(ChainOps(init), l);
      }
    }
  }

  lemma NoLinks(blocks: seq<Block>, validators: KeyTable)
    requires |blocks| == 1
    ensures Linked(blocks, validators)
  {
  }

  /** A chain that 64-bit replay accepts keeps money, operation by operation and update by update, if and only if every
      operation fits the ledger it is applied to; and then the supply is that of genesis, with every balance between
      zero and it. */
  lemma MachineChainConservesIff(blocks: seq<Block>, l: Ledger, a: AccountID)
    requires blocks != [] && Sound64(l) && ReplayM(blocks, l).Ok? && Int64Ops(ChainOps(blocks))
    ensures RunKeepsMoney(ChainOps(blocks), l) <==> RunFits(ChainOps(blocks), l)
    ensures RunKeepsMoney(ChainOps(blocks), l) ==>
              var after := ReplayM(blocks, l).value;
              && Sound64(after) && Supply(after.accounts) == Supply(l.accounts)
              && 0 <= BalanceOf(after.accounts, a) <= Supply(l.accounts)
  {
    hide ReplayM, RunM, RunKeepsMoney, RunFits, Supply, Int64Ops, ChainOps;
    ReplayMIsRun(blocks, l);
    MachineRunConservesIff(ChainOps(blocks), l);
    if RunKeepsMoney(ChainOps(blocks), l) {
      SoundWithin(ReplayM(blocks, l).value.accounts);
    }
  }

  /** A chain that the unbounded rules accept, 64-bit replay accepts with the same ledger. One that 64-bit replay
      accepts, the unbounded rules accept with the same ledger if and only if the totals of every payment fit. */
  lemma MachineReplayIsReplayIff(blocks: seq<Block>, l: Ledger)
    requires blocks != [] && Sound(l) && Supply(l.accounts) < TWO_63 && InputsFit(ChainOps(blocks), l.taxes)
    ensures Replay(blocks, l).Ok? ==> ReplayM(blocks, l) == Replay(blocks, l)
    ensures ReplayM(blocks, l).Ok? ==>
              (ReplayM(blocks, l) == Replay(blocks, l) <==> AllTotalsFit(ChainOps(blocks), l.taxes))
  {
    hide ReplayM, Replay, Run, RunM, Supply, Linked, InputsFit, AllTotalsFit;
    ReplayIsRun(blocks, l);
    ReplayMIsRun(blocks, l);
    RunIsExactIff(ChainOps(blocks), l);
  }
}
