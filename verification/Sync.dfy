/** Applying batches of blocks from peers, as values: what `applyBlocks` does to a chain and its ledger. */
module Sync {
  import opened Domain
  import opened Crypto
  import opened LedgerRules
  import opened ChainRules

  datatype Replica = Replica(chain: seq<Block>, ledger: Ledger)

  datatype BatchResult = BatchResult(replica: Replica, outcome: Outcome)

  ghost predicate WellFormed(r: Replica, origin: Ledger) {
    r.chain != [] && IsGenesis(r.chain[0]) && Replay(r.chain, origin) == Ok(r.ledger)
  }

  // One block against the local height: stale blocks are skipped, a gap asks for sync, the next one is appended.
  function Receive(b: Block, ioOk: bool, r: Replica): BatchResult
    requires r.chain != []
  {
    var height := |r.chain| - 1;
    if b.height <= height then BatchResult(r, Accepted)
    else if height + 1 < b.height then BatchResult(r, Rejected(NeedSync(b.height, height)))
    else
      var next := CheckBlock(b, r.chain[height], r.ledger);
      if next.Err? then BatchResult(r, Rejected(next.error))
      else if !ioOk then BatchResult(r, Rejected(StoreFailure))
      else BatchResult(Replica(r.chain + [b], next.value), Accepted)
  }

  /** The batch in order, stopping at the first error; `io` says which store updates succeed. */
  function ReceiveAll(batch: seq<Block>, io: nat -> bool, r: Replica): (res: BatchResult)
    requires r.chain != []
    ensures r.chain <= res.replica.chain
  {
    if batch == [] then BatchResult(r, Accepted) else
      var before := ReceiveAll(batch[..|batch| - 1], io, r);
      if before.outcome.Rejected? then before else Receive(batch[|batch| - 1], io(|batch| - 1), before.replica)
  }

  lemma {:induction false} ReceiveErrorSticks(batch: seq<Block>, io: nat -> bool, r: Replica, n: nat)
    requires r.chain != [] && n <= |batch| && ReceiveAll(batch[..n], io, r).outcome.Rejected?
    ensures ReceiveAll(batch, io, r) == ReceiveAll(batch[..n], io, r)
    decreases |batch|
  {
    if n == |batch| {
      assert batch[..n] == batch;
    } else {
      assert batch[..|batch| - 1][..n] == batch[..n];
      ReceiveErrorSticks(batch[..|batch| - 1], io, r, n);
    }
  }

  lemma ReceiveAllSnoc(batch: seq<Block>, i: nat, io: nat -> bool, r: Replica)
    requires r.chain != [] && i < |batch| && ReceiveAll(batch[..i], io, r).outcome.Accepted?
    ensures ReceiveAll(batch[..i + 1], io, r) == Receive(batch[i], io(i), ReceiveAll(batch[..i], io, r).replica)
  {
    assert batch[..i + 1][..i] == batch[..i];
  }

  lemma ReceiveKeepsWellFormed(b: Block, ioOk: bool, r: Replica, origin: Ledger)
    requires WellFormed(r, origin)
    ensures WellFormed(Receive(b, ioOk, r).replica, origin)
    ensures r.chain <= Receive(b, ioOk, r).replica.chain
  {
    ReplaySnoc(r.chain, b, origin);
  }

  /** Any batch at all, valid or not, only extends the chain, and the ledger stays the replay of the chain. */
  lemma {:induction false} ReceiveAllKeepsWellFormed(batch: seq<Block>, io: nat -> bool, r: Replica, origin: Ledger)
    requires WellFormed(r, origin)
    ensures WellFormed(ReceiveAll(batch, io, r).replica, origin)
  {
    if batch != [] {
      var before := ReceiveAll(batch[..|batch| - 1], io, r);
      ReceiveAllKeepsWellFormed(batch[..|batch| - 1], io, r, origin);
      if before.outcome.Accepted? {
        ReceiveKeepsWellFormed(batch[|batch| - 1], io(|batch| - 1), before.replica, origin);
      }
    }
  }

  // ---------------------------------------------------------------------------------------------
  // Catching up with a peer
  // ---------------------------------------------------------------------------------------------

  const RELIABLE: nat -> bool := i => true

  /** The local height after a batch of peer blocks, and whether a gap stopped it: a function of the heights alone. */
  function Climb(batch: seq<Block>, height: int): (int, Outcome) {
    if batch == [] then (height, Accepted) else
      var (h, outcome) := Climb(batch[..|batch| - 1], height);
      if outcome.Rejected? then (h, outcome) else ClimbStep(batch[|batch| - 1].height, h)
  }

  function ClimbStep(got: int, height: int): (int, Outcome) {
    if got <= height then (height, Accepted)
    else if height + 1 < got then (height, Rejected(NeedSync(got, height)))
    else (height + 1, Accepted)
  }

  /** The same content at every common height: what two nodes of one network always have. */
  ghost predicate SameStart(p: seq<Block>, q: seq<Block>) {
    forall i :: 0 <= i < |p| && i < |q| ==> SameContent(p[i], q[i])
  }

  ghost predicate Agreeing(local: Replica, peer: Replica, origin: Ledger) {
    WellFormed(local, origin) && WellFormed(peer, origin) && SameStart(local.chain, peer.chain)
  }

  lemma PeerPosition(peer: Replica, origin: Ledger, b: Block)
    requires WellFormed(peer, origin) && b in peer.chain
    ensures 0 <= b.height < |peer.chain| && peer.chain[b.height] == b
  {
    hide Replay;
    AcceptedHeights(peer.chain, origin);
    var k :| 0 <= k < |peer.chain| && peer.chain[k] == b;
  }

  lemma SameTip(local: Replica, peer: Replica, origin: Ledger, i: nat)
    requires Agreeing(local, peer, origin) && i < |local.chain| && i < |peer.chain|
    ensures local.chain[i].height == peer.chain[i].height && local.chain[i].hash == peer.chain[i].hash
  {
    hide Replay;
    AcceptedIsHashLinked(local.chain, origin);
    AcceptedIsHashLinked(peer.chain, origin);
    assert HashLinkedAt(local.chain, i) && HashLinkedAt(peer.chain, i);
    HashCommitsToContent(local.chain[i], peer.chain[i]);
  }

  lemma SameLength(local: Replica, peer: Replica, origin: Ledger, n: nat)
    requires Agreeing(local, peer, origin) && n == |local.chain| <= |peer.chain|
    ensures SameContents(local.chain, peer.chain[..n])
    ensures Replay(peer.chain[..n], origin) == Ok(local.ledger)
  {
    hide SameContent, CheckBlock;
    ReplayPrefix(peer.chain, n, origin);
    SameContentsSameLedger(local.chain, peer.chain[..n], origin);
  }

  lemma PreviousByTip(b: Block, p: Block, q: Block, l: Ledger)
    requires p.height == q.height && p.hash == q.hash
    ensures CheckBlock(b, p, l) == CheckBlock(b, q, l)
  {
    hide Run;
  }

  lemma NextPeerBlock(local: Replica, peer: Replica, origin: Ledger, n: nat)
    requires Agreeing(local, peer, origin) && n == |local.chain| < |peer.chain|
    ensures CheckBlock(peer.chain[n], local.chain[n - 1], local.ledger).Ok?
    ensures var next := CheckBlock(peer.chain[n], local.chain[n - 1], local.ledger).value;
            Agreeing(Replica(local.chain + [peer.chain[n]], next), peer, origin)
  {
    hide CheckBlock, SameContent;
    SameLength(local, peer, origin, n);
    SameTip(local, peer, origin, n - 1);
    ReplayPrefix(peer.chain, n + 1, origin);
    ReplayNext(peer.chain, n, origin);
    PreviousByTip(peer.chain[n], local.chain[n - 1], peer.chain[n - 1], local.ledger);
    ReplaySnoc(local.chain, peer.chain[n], origin);
    SameContentReflexive(peer.chain[n]);
  }

  lemma SameContentReflexive(a: Block)
    ensures SameContent(a, a)
  {
  }

  /** What was appended is the peer's, block by block. */
  ghost predicate Copies(chain: seq<Block>, from: nat, peer: seq<Block>) {
    forall i :: from <= i < |chain| ==> i < |peer| && chain[i] == peer[i]
  }

  lemma PeerStep(b: Block, local: Replica, peer: Replica, origin: Ledger)
    requires Agreeing(local, peer, origin) && b in peer.chain
    ensures var res := Receive(b, true, local);
            && local.chain <= res.replica.chain
            && Agreeing(res.replica, peer, origin) && Copies(res.replica.chain, |local.chain|, peer.chain)
            && (|res.replica.chain| - 1, res.outcome) == ClimbStep(b.height, |local.chain| - 1)
  {
    hide CheckBlock, SameContent;
    PeerPosition(peer, origin, b);
    if b.height == |local.chain| {
      NextPeerBlock(local, peer, origin, |local.chain|);
    }
  }

  lemma CopiesExtend(before: seq<Block>, after: seq<Block>, from: nat, peer: seq<Block>)
    requires before <= after && Copies(before, from, peer) && Copies(after, |before|, peer)
    ensures Copies(after, from, peer)
  {
    assert forall i :: from <= i < |before| ==> after[i] == before[i];
  }

  lemma NothingToCopy(chain: seq<Block>, peer: seq<Block>)
    ensures Copies(chain, |chain|, peer)
  {
  }

  /** From any batch of peer blocks, repeated, stale, reordered or with gaps, the local chain keeps agreeing with the
      peer's and copies what it appends; how far it climbs and whether it asks for sync is decided by the heights
      alone, never by a validation failure. */
  lemma {:induction false} PeerBatch(batch: seq<Block>, local: Replica, peer: Replica, origin: Ledger)
    requires Agreeing(local, peer, origin) && forall i :: 0 <= i < |batch| ==> batch[i] in peer.chain
    ensures var res := ReceiveAll(batch, RELIABLE, local);
            && Agreeing(res.replica, peer, origin) && Copies(res.replica.chain, |local.chain|, peer.chain)
            && (|res.replica.chain| - 1, res.outcome) == Climb(batch, |local.chain| - 1)
  {
    hide CheckBlock, Replay, SameContent, SameStart, Receive, ClimbStep, Copies;
    if batch == [] {
      NothingToCopy(local.chain, peer.chain);
    } else {
      var init, b := batch[..|batch| - 1], batch[|batch| - 1];
      PeerBatch(init, local, peer, origin);
      var before := ReceiveAll(init, RELIABLE, local);
      if before.outcome.Accepted? {
        PeerStep(b, before.replica, peer, origin);
        assert ReceiveAll(batch, RELIABLE, local) == Receive(b, true, before.replica);
        CopiesExtend(before.replica.chain, ReceiveAll(batch, RELIABLE, local).replica.chain, |local.chain|, peer.chain);
      }
    }
  }

  lemma {:induction false} ClimbsSuffix(chain: seq<Block>, from: nat, height: nat, n: nat)
    requires forall i :: 0 <= i < |chain| ==> chain[i].height == i
    requires from <= n <= |chain| && from <= height + 1
    ensures Climb(chain[from..n], height) == (if n <= height + 1 then height else n - 1, Accepted)
    decreases n
  {
    if from < n {
      ClimbsSuffix(chain, from, height, n - 1);
      assert chain[from..n][..n - from - 1] == chain[from..n - 1];
    }
  }

  lemma SuffixClimb(chain: seq<Block>, from: nat, n: nat)
    requires 0 < n && from <= n && from <= |chain|
    requires forall i :: 0 <= i < |chain| ==> chain[i].height == i
    ensures Climb(chain[from..], n - 1) == (if |chain| <= n then n - 1 else |chain| - 1, Accepted)
  {
    ClimbsSuffix(chain, from, n - 1, |chain|);
    assert chain[from..|chain|] == chain[from..];
  }

  lemma SuffixReceived(local: Replica, peer: Replica, origin: Ledger, from: nat)
    requires Agreeing(local, peer, origin) && from <= |local.chain| && from <= |peer.chain|
    ensures var res := ReceiveAll(peer.chain[from..], RELIABLE, local);
            && Agreeing(res.replica, peer, origin) && Copies(res.replica.chain, |local.chain|, peer.chain)
            && res.outcome == Accepted
            && |res.replica.chain| == if |local.chain| <= |peer.chain| then |peer.chain| else |local.chain|
  {
    hide Replay, ReceiveAll, Climb, SameContent;
    var batch := peer.chain[from..];
    forall i | 0 <= i < |batch| ensures batch[i] in peer.chain {
      assert batch[i] == peer.chain[from + i];
    }
    PeerBatch(batch, local, peer, origin);
    AcceptedHeights(peer.chain, origin);
    SuffixClimb(peer.chain, from, |local.chain|);
  }

  /** A local chain that is at least as long is left alone; a shorter one gets the peer's content and ledger, its own
      blocks kept and the missing ones copied. */
  ghost predicate CaughtUp(after: Replica, local: Replica, peer: Replica) {
    if |peer.chain| <= |local.chain| then after == local
    else local.chain <= after.chain && Copies(after.chain, |local.chain|, peer.chain)
         && SameContents(after.chain, peer.chain) && after.ledger == peer.ledger
  }

  /** The reply to requestSync(from), for any from up to the local height plus one, catches the local replica up with
      the peer as of the reply. */
  lemma SyncReplyCatchesUp(local: Replica, peer: Replica, origin: Ledger, from: nat)
    requires Agreeing(local, peer, origin) && from <= |local.chain| && from <= |peer.chain|
    ensures var res := ReceiveAll(peer.chain[from..], RELIABLE, local);
            res.outcome == Accepted && CaughtUp(res.replica, local, peer)
  {
    hide Replay, ReceiveAll, SameContent, Copies;
    var res := ReceiveAll(peer.chain[from..], RELIABLE, local).replica;
    SuffixReceived(local, peer, origin, from);
    if |peer.chain| <= |local.chain| {
      assert local.chain == res.chain;
    } else {
      SameLength(res, peer, origin, |peer.chain|);
      assert peer.chain[..|peer.chain|] == peer.chain;
    }
  }
}
