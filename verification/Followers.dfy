/** Catching up under another keystore: a follower and its peer start from the same configuration but not the same
    account keys. */
module Followers {
  import opened Domain
  import opened Crypto
  import opened LedgerRules
  import opened LedgerEffects
  import opened ChainRules
  import opened Restart
  import opened Sync

  ghost predicate DifferInKeys(l: Ledger, m: Ledger) { l == m.(keys := l.keys) }

  /** The follower's first-start ledger has its own account keys, and its chain the peer's content at every common
      height. */
  ghost predicate Follows(local: Replica, peer: Replica, ours: Ledger, theirs: Ledger) {
    && WellFormed(local, ours) && WellFormed(peer, theirs)
    && SameStart(local.chain, peer.chain) && DifferInKeys(ours, theirs)
  }

  // The operations of all blocks, the first included.
  function OpsOf(blocks: seq<Block>): seq<Op> {
    if blocks == [] then [] else OpsOf(blocks[..|blocks| - 1]) + BlockOps(blocks[|blocks| - 1])
  }

  // ---------------------------------------------------------------------------------------------
  // A chain splits into its beginning and the run of what follows
  // ---------------------------------------------------------------------------------------------

  lemma {:induction false} ChainOpsSplit(blocks: seq<Block>, n: nat)
    requires 0 < n <= |blocks|
    ensures ChainOps(blocks) == ChainOps(blocks[..n]) + OpsOf(blocks[n..])
    decreases |blocks|
  {
    hide BlockOps;
    if n == |blocks| {
      assert blocks[..n] == blocks;
    } else {
      var init, rest := blocks[..|blocks| - 1], blocks[n..];
      ChainOpsSplit(init, n);
      assert init[..n] == blocks[..n];
      assert rest[..|rest| - 1] == init[n..];
    }
  }

  /** What follows position n runs from the ledger there to the ledger at the end. */
  lemma RestRuns(blocks: seq<Block>, n: nat, l: Ledger)
    requires 0 < n <= |blocks| && Replay(blocks, l).Ok?
    ensures Replay(blocks[..n], l).Ok?
    ensures Run(OpsOf(blocks[n..]), Replay(blocks[..n], l).value) == Replay(blocks, l)
  {
    hide Replay, CheckBlock, ChainOps, OpsOf, Run;
    ReplayPrefix(blocks, n, l);
    ReplayIsRun(blocks, l);
    ReplayIsRun(blocks[..n], l);
    ChainOpsSplit(blocks, n);
    RunConcat(ChainOps(blocks[..n]), OpsOf(blocks[n..]), l);
  }

  // ---------------------------------------------------------------------------------------------
  // The same content under different keys
  // ---------------------------------------------------------------------------------------------

  lemma SameOpUpToKeys(a: Op, b: Op, l: Ledger, m: Ledger)
    requires SameOp(a, b) && DifferInKeys(l, m) && Apply(a, l).Ok? && Apply(b, m).Ok?
    ensures DifferInKeys(Apply(a, l).value, Apply(b, m).value)
  {
  }

  lemma {:induction false} SameOpsUpToKeys(a: seq<Op>, b: seq<Op>, l: Ledger, m: Ledger)
    requires |a| == |b| && forall i :: 0 <= i < |a| ==> SameOp(a[i], b[i])
    requires DifferInKeys(l, m) && Run(a, l).Ok? && Run(b, m).Ok?
    ensures DifferInKeys(Run(a, l).value, Run(b, m).value)
  {
    hide Apply, SameOp, DifferInKeys;
    if a != [] {
      var p, q := a[..|a| - 1], b[..|b| - 1];
      SameOpsUpToKeys(p, q, l, m);
      SameOpUpToKeys(a[|a| - 1], b[|b| - 1], Run(p, l).value, Run(q, m).value);
    }
  }

  lemma {:induction false} SameContentsUpToKeys(p: seq<Block>, q: seq<Block>, l: Ledger, m: Ledger)
    requires p != [] && SameContents(p, q) && DifferInKeys(l, m)
    requires Replay(p, l).Ok? && Replay(q, m).Ok?
    ensures DifferInKeys(Replay(p, l).value, Replay(q, m).value)
  {
    hide SameContent, Run, BlockOps, DifferInKeys, SameOp, CheckHeader;
    if |p| > 1 {
      var a, b := p[|p| - 1], q[|q| - 1];
      SameContentsUpToKeys(p[..|p| - 1], q[..|q| - 1], l, m);
      SameContentSameOps(a, b);
      SameOpsUpToKeys(BlockOps(a), BlockOps(b), Replay(p[..|p| - 1], l).value, Replay(q[..|q| - 1], m).value);
    }
  }

  // ---------------------------------------------------------------------------------------------
  // Receiving blocks that continue a chain
  // ---------------------------------------------------------------------------------------------

  function Before(tip: Block, blocks: seq<Block>, i: int): Block
    requires 0 <= i <= |blocks|
  {
    if i == 0 then tip else blocks[i - 1]
  }

  ghost predicate ContinuesAt(tip: Block, blocks: seq<Block>, i: int, validators: KeyTable) {
    0 <= i < |blocks| && CheckHeader(blocks[i], Before(tip, blocks, i), validators) == Accepted
  }

  /** The headers of blocks are accepted one after another, the first one on tip. */
  ghost predicate Continues(tip: Block, blocks: seq<Block>, validators: KeyTable) {
    forall i :: 0 <= i < |blocks| ==> ContinuesAt(tip, blocks, i, validators)
  }

  lemma ContinuesInit(tip: Block, blocks: seq<Block>, validators: KeyTable)
    requires blocks != [] && Continues(tip, blocks, validators)
    ensures Continues(tip, blocks[..|blocks| - 1], validators)
  {
    var init := blocks[..|blocks| - 1];
    forall i | 0 <= i < |init| ensures ContinuesAt(tip, init, i, validators) {
      assert ContinuesAt(tip, blocks, i, validators);
    }
  }

  lemma {:induction false} ContinuedHeight(tip: Block, blocks: seq<Block>, validators: KeyTable, i: nat)
    requires Continues(tip, blocks, validators) && i <= |blocks|
    ensures Before(tip, blocks, i).height == tip.height + i
  {
    if i > 0 {
      ContinuedHeight(tip, blocks, validators, i - 1);
      assert ContinuesAt(tip, blocks, i - 1, validators);
    }
  }

  lemma ReceiveContinues(b: Block, r: Replica)
    requires r.chain != [] && CheckHeader(b, r.chain[|r.chain| - 1], r.ledger.validators) == Accepted
    requires r.chain[|r.chain| - 1].height == |r.chain| - 1
    ensures var next := Run(BlockOps(b), r.ledger);
            Receive(b, true, r) == if next.Ok? then BatchResult(Replica(r.chain + [b], next.value), Accepted)
                                   else BatchResult(r, Rejected(next.error))
  {
    hide Run, BlockOps;
  }

  /** Blocks that continue the chain are appended as long as their operations run: all of them, or too few. */
  lemma {:induction false} RestReceived(rest: seq<Block>, r: Replica)
    requires r.chain != [] && r.chain[|r.chain| - 1].height == |r.chain| - 1
    requires Continues(r.chain[|r.chain| - 1], rest, r.ledger.validators)
    ensures var res, run := ReceiveAll(rest, RELIABLE, r), Run(OpsOf(rest), r.ledger);
            && (res.outcome.Accepted? <==> run.Ok?)
            && (run.Ok? ==> res.replica == Replica(r.chain + rest, run.value))
            && (run.Err? ==> |res.replica.chain| < |r.chain| + |rest|)
  {
    hide CheckHeader, BlockOps, Receive, Apply;
    if rest == [] {
      assert r.chain + rest == r.chain;
    } else {
      var tip, init, b := r.chain[|r.chain| - 1], rest[..|rest| - 1], rest[|rest| - 1];
      ContinuesInit(tip, rest, r.ledger.validators);
      RestReceived(init, r);
      RunConcat(OpsOf(init), BlockOps(b), r.ledger);
      var before := ReceiveAll(init, RELIABLE, r);
      if before.outcome.Accepted? {
        RunFrame(OpsOf(init), r.ledger);
        ContinuedHeight(tip, rest, r.ledger.validators, |init|);
        assert ContinuesAt(tip, rest, |init|, r.ledger.validators);
        ReceiveContinues(b, before.replica);
        assert r.chain + rest == (r.chain + init) + [b];
      }
    }
  }

  lemma {:induction false} StaleIsSkipped(batch: seq<Block>, r: Replica)
    requires r.chain != [] && forall i :: 0 <= i < |batch| ==> batch[i].height < |r.chain|
    ensures ReceiveAll(batch, RELIABLE, r) == BatchResult(r, Accepted)
  {
    if batch != [] {
      StaleIsSkipped(batch[..|batch| - 1], r);
    }
  }

  lemma {:induction false} ReceiveConcat(stale: seq<Block>, rest: seq<Block>, r: Replica)
    requires r.chain != [] && ReceiveAll(stale, RELIABLE, r) == BatchResult(r, Accepted)
    ensures ReceiveAll(stale + rest, RELIABLE, r) == ReceiveAll(rest, RELIABLE, r)
  {
    hide Receive;
    if rest == [] {
      assert stale + rest == stale;
    } else {
      ReceiveConcat(stale, rest[..|rest| - 1], r);
      assert (stale + rest)[..|stale + rest| - 1] == stale + rest[..|rest| - 1];
    }
  }

  // ---------------------------------------------------------------------------------------------
  // Catching up
  // ---------------------------------------------------------------------------------------------

  /** Up to position n the two chains lead to ledgers that differ in account keys only. */
  lemma CommonLedger(local: Replica, peer: Replica, ours: Ledger, theirs: Ledger)
    requires Follows(local, peer, ours, theirs) && |local.chain| <= |peer.chain|
    ensures Replay(peer.chain[..|local.chain|], theirs).Ok?
    ensures DifferInKeys(local.ledger, Replay(peer.chain[..|local.chain|], theirs).value)
  {
    hide SameContent, Replay, DifferInKeys;
    ReplayPrefix(peer.chain, |local.chain|, theirs);
    SameContentsUpToKeys(local.chain, peer.chain[..|local.chain|], ours, theirs);
  }

  lemma HeaderByTip(b: Block, p: Block, q: Block, validators: KeyTable)
    requires p.height == q.height && p.hash == q.hash
    ensures CheckHeader(b, p, validators) == CheckHeader(b, q, validators)
  {
  }

  /** The peer's further blocks continue the follower's chain. */
  lemma PeerContinues(local: Replica, peer: Replica, ours: Ledger, theirs: Ledger)
    requires Follows(local, peer, ours, theirs) && |local.chain| <= |peer.chain|
    ensures var tip := local.chain[|local.chain| - 1];
            tip.height == |local.chain| - 1 && Continues(tip, peer.chain[|local.chain|..], local.ledger.validators)
  {
    hide Replay, CheckHeader, Run, SameContent;
    var n := |local.chain|;
    var tip, theirTip, rest := local.chain[n - 1], peer.chain[n - 1], peer.chain[n..];
    AcceptedIsHashLinked(local.chain, ours);
    AcceptedIsHashLinked(peer.chain, theirs);
    assert HashLinkedAt(local.chain, n - 1) && HashLinkedAt(peer.chain, n - 1);
    HashCommitsToContent(tip, theirTip);
    ReplayIsRun(local.chain, ours);
    ReplayIsRun(peer.chain, theirs);
    RunFrame(ChainOps(local.chain), ours);
    forall i | 0 <= i < |rest| ensures ContinuesAt(tip, rest, i, local.ledger.validators) {
      assert LinkedAt(peer.chain, n + i, theirs.validators);
      HeaderByTip(rest[i], tip, theirTip, theirs.validators);
    }
  }

  lemma ReplyIsRest(local: Replica, peer: Replica, theirs: Ledger, from: nat)
    requires local.chain != [] && WellFormed(peer, theirs) && from <= |local.chain| && from <= |peer.chain|
    ensures |peer.chain| <= |local.chain| ==>
              ReceiveAll(peer.chain[from..], RELIABLE, local) == BatchResult(local, Accepted)
    ensures |local.chain| <= |peer.chain| ==>
              ReceiveAll(peer.chain[from..], RELIABLE, local)
              == ReceiveAll(peer.chain[|local.chain|..], RELIABLE, local)
  {
    hide Replay, ReceiveAll, Receive;
    AcceptedHeights(peer.chain, theirs);
    if |peer.chain| <= |local.chain| {
      StaleIsSkipped(peer.chain[from..], local);
      StaleIsSkipped([], local);
      assert |peer.chain| == |local.chain| ==> peer.chain[|local.chain|..] == [];
    } else {
      var stale, rest := peer.chain[from..|local.chain|], peer.chain[|local.chain|..];
      StaleIsSkipped(stale, local);
      ReceiveConcat(stale, rest, local);
      assert peer.chain[from..] == stale + rest;
    }
  }

  /** All missing blocks are appended, and the ledger is the peer's but for the account keys. */
  ghost predicate CatchesUp(after: Replica, local: Replica, peer: Replica)
    requires |local.chain| <= |peer.chain|
  {
    var missing := peer.chain[|local.chain|..];
    after == Replica(local.chain + missing, peer.ledger.(keys := KeysAfter(OpsOf(missing), local.ledger.keys)))
  }

  /** A follower with other keys catches up with its peer if and only if, at its own height, it agrees with the peer on
      the key of every account that the missing blocks need. */
  lemma FollowerCatchesUpIff(local: Replica, peer: Replica, ours: Ledger, theirs: Ledger, from: nat)
    requires Follows(local, peer, ours, theirs) && from <= |local.chain| < |peer.chain|
    ensures Replay(peer.chain[..|local.chain|], theirs).Ok?
    ensures var res, n := ReceiveAll(peer.chain[from..], RELIABLE, local), |local.chain|;
            var common := Replay(peer.chain[..n], theirs).value;
            if KeysSuffice(OpsOf(peer.chain[n..]), common.keys, local.ledger.keys) then
              res.outcome == Accepted && CatchesUp(res.replica, local, peer)
            else
              res.outcome.Rejected? && |res.replica.chain| < |peer.chain|
  {
    hide Replay, ReceiveAll, Run, KeysAfter, KeysSuffice, Continues;
    var n := |local.chain|;
    var missing := peer.chain[n..];
    CommonLedger(local, peer, ours, theirs);
    var common := Replay(peer.chain[..n], theirs).value;
    RestRuns(peer.chain, n, theirs);
    PeerContinues(local, peer, ours, theirs);
    ReplyIsRest(local, peer, theirs, from);
    RestReceived(missing, local);
    RunUnderOtherKeys(OpsOf(missing), common, local.ledger.keys);
  }

  /** A follower whose blocks are the peer's own, one that has only the genesis block included, catches up if and only
      if the keystores agree on every account whose key the peer's chain needs. */
  lemma CopyCatchesUpIff(local: Replica, peer: Replica, ours: Ledger, theirs: Ledger, from: nat)
    requires WellFormed(local, ours) && WellFormed(peer, theirs) && DifferInKeys(ours, theirs)
    requires local.chain < peer.chain && from <= |local.chain|
    ensures var res, ops := ReceiveAll(peer.chain[from..], RELIABLE, local), ChainOps(peer.chain);
            if KeysSuffice(ops, theirs.keys, ours.keys) then
              res == BatchResult(Replica(peer.chain, peer.ledger.(keys := KeysAfter(ops, ours.keys))), Accepted)
            else
              res.outcome.Rejected? && |res.replica.chain| < |peer.chain|
  {
    hide Replay, ReceiveAll, Run, KeysAfter, KeysSuffice, Continues, SameContent, ChainOps, OpsOf;
    var n := |local.chain|;
    var missing := peer.chain[n..];
    assert peer.chain[..n] == local.chain && local.chain + missing == peer.chain;
    forall i | 0 <= i < n ensures SameContent(local.chain[i], peer.chain[i]) {
      SameContentReflexive(local.chain[i]);
    }
    PeerContinues(local, peer, ours, theirs);
    ReplyIsRest(local, peer, theirs, from);
    RestReceived(missing, local);
    ReplayIsRun(local.chain, ours);
    ReplayIsRun(peer.chain, theirs);
    ChainOpsSplit(peer.chain, n);
    RunConcat(ChainOps(local.chain), OpsOf(missing), ours);
    RunUnderOtherKeys(ChainOps(peer.chain), theirs, ours.keys);
  }
}
