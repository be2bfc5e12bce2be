/** How a node finds out that it is behind: handshakes and announced blocks, each dispatched at its receiver, until the
    answer has arrived. */
module Syncing {
  import opened Domain
  import opened Crypto
  import opened LedgerRules
  import opened ChainRules
  import opened Restart
  import opened Chain
  import opened Sync
  import opened Followers
  import opened Network

  /** What the peer answers to a request, and what becomes of the node that applies the answer. */
  function Answered(request: Body, local: Replica, peer: Replica, inbound: bool, chainId: string): Replica
    requires local.chain != [] && peer.chain != [] && request.GetBlocks?
  {
    React(React(request, !inbound, chainId, RELIABLE, peer).replies[0], inbound, chainId, RELIABLE, local).replica
  }

  lemma AnswerCatchesUp(local: Replica, peer: Replica, origin: Ledger, from: nat, inbound: bool, chainId: string)
    requires Agreeing(local, peer, origin) && from <= |local.chain|
    ensures CaughtUp(Answered(GetBlocks(from), local, peer, inbound, chainId), local, peer)
  {
    hide Agreeing, CaughtUp, React, WellFormed;
    assert local.chain != [] && peer.chain != [] by {
      AgreeingHasChains(local, peer, origin);
    }
    SyncRoundTrip(local, peer, origin, from, !inbound, chainId);
  }

  lemma AgreeingHasChains(local: Replica, peer: Replica, origin: Ledger)
    requires Agreeing(local, peer, origin)
    ensures local.chain != [] && peer.chain != []
  {
  }

  /** The request of a node of some height: the peer answers it with exactly the blocks the node does not have. */
  lemma AnswerIsMissing(request: Body, local: Replica, peer: Replica, inbound: bool, chainId: string)
    requires peer.chain != [] && |local.chain| < |peer.chain| && request == GetBlocks(|local.chain|)
    ensures React(request, inbound, chainId, RELIABLE, peer).replies
            == [BlocksResponse(peer.chain[|local.chain|..])]
  {
    assert SuffixFrom(peer.chain, |local.chain|) == peer.chain[|local.chain|..];
  }

  /** A reply that makes up for everything the node lacks: a request the peer answers with exactly the missing blocks,
      which leave the node caught up. */
  ghost predicate MakesUp(reply: Body, local: Replica, peer: Replica, inbound: bool, chainId: string)
    requires local.chain != [] && |local.chain| <= |peer.chain|
  {
    && reply.GetBlocks?
    && React(reply, !inbound, chainId, RELIABLE, peer).replies == [BlocksResponse(peer.chain[|local.chain|..])]
    && CaughtUp(Answered(reply, local, peer, inbound, chainId), local, peer)
  }

  lemma RequestMakesUp(local: Replica, peer: Replica, origin: Ledger, inbound: bool, chainId: string)
    requires Agreeing(local, peer, origin) && |local.chain| < |peer.chain|
    ensures MakesUp(GetBlocks(|local.chain|), local, peer, inbound, chainId)
  {
    hide Agreeing, CaughtUp, React, Answered;
    AgreeingHasChains(local, peer, origin);
    AnswerIsMissing(GetBlocks(|local.chain|), local, peer, !inbound, chainId);
    AnswerCatchesUp(local, peer, origin, |local.chain|, inbound, chainId);
  }

  /** A handshake never changes the chain. From a peer of another chain it is refused and not answered. Otherwise an
      inbound one is answered with this node's own handshake, any one from a taller peer with a request that makes up
      for everything the node lacks, and one from a peer that is not taller with no request. */
  lemma HandshakeCatchesUp(local: Replica, peer: Replica, origin: Ledger, theirs: string, inbound: bool,
                           chainId: string)
    requires Agreeing(local, peer, origin)
    ensures var met := React(Handshake(theirs, |peer.chain| - 1), inbound, chainId, RELIABLE, local);
            && met.replica == local
            && (theirs != chainId ==> met.outcome.Rejected? && met.replies == [])
            && (theirs == chainId ==>
                  && met.outcome == Accepted
                  && (inbound ==> met.replies != [] && met.replies[0] == Handshake(chainId, |local.chain| - 1))
                  && var rest := if inbound then met.replies[1..] else met.replies;
                     if |local.chain| < |peer.chain| then
                       |rest| == 1 && MakesUp(rest[0], local, peer, inbound, chainId)
                     else
                       rest == [])
  {
    hide Agreeing, MakesUp, Answered;
    AgreeingHasChains(local, peer, origin);
    if |local.chain| < |peer.chain| {
      RequestMakesUp(local, peer, origin, inbound, chainId);
    }
  }

  /** Two nodes that agree and connect: the dialer sends its handshake, the listener its own in answer, and whichever is
      shorter asks; once that is answered both have the same content and the same ledger. */
  lemma ConnectingEqualises(dialer: Replica, listener: Replica, origin: Ledger, chainId: string)
    requires Agreeing(dialer, listener, origin)
    ensures var heard := React(Handshake(chainId, |dialer.chain| - 1), true, chainId, RELIABLE, listener).replies;
            && heard != []
            && var told := React(heard[0], false, chainId, RELIABLE, dialer).replies;
               if |dialer.chain| < |listener.chain| then
                 && |heard| == 1 && |told| == 1 && told[0].GetBlocks?
                 && Equal(Answered(told[0], dialer, listener, false, chainId), listener)
               else if |listener.chain| < |dialer.chain| then
                 && |heard| == 2 && told == [] && heard[1].GetBlocks?
                 && Equal(Answered(heard[1], listener, dialer, true, chainId), dialer)
               else
                 |heard| == 1 && told == [] && Equal(dialer, listener)
  {
    hide Agreeing, MakesUp, Answered, CaughtUp, Equal;
    AgreeingHasChains(dialer, listener, origin);
    AgreeingSwaps(dialer, listener, origin);
    HandshakeCatchesUp(listener, dialer, origin, chainId, true, chainId);
    HandshakeCatchesUp(dialer, listener, origin, chainId, false, chainId);
    if |dialer.chain| < |listener.chain| {
      RequestMakesUp(dialer, listener, origin, false, chainId);
      MadeUpIsEqual(GetBlocks(|dialer.chain|), dialer, listener, false, chainId);
    } else if |listener.chain| < |dialer.chain| {
      RequestMakesUp(listener, dialer, origin, true, chainId);
      MadeUpIsEqual(GetBlocks(|listener.chain|), listener, dialer, true, chainId);
    } else {
      SameLengthIsEqual(dialer, listener, origin);
    }
  }

  /** The same content at every height, and the same ledger. */
  ghost predicate Equal(a: Replica, b: Replica) { SameContents(a.chain, b.chain) && a.ledger == b.ledger }

  lemma MadeUpIsEqual(request: Body, local: Replica, peer: Replica, inbound: bool, chainId: string)
    requires local.chain != [] && |local.chain| < |peer.chain| && MakesUp(request, local, peer, inbound, chainId)
    ensures request.GetBlocks? && Equal(Answered(request, local, peer, inbound, chainId), peer)
  {
    hide React, Answered, SameContents;
  }

  lemma AgreeingSwaps(a: Replica, b: Replica, origin: Ledger)
    requires Agreeing(a, b, origin)
    ensures Agreeing(b, a, origin)
  {
    hide SameContent, WellFormed;
    forall i | 0 <= i < |a.chain| && i < |b.chain| ensures SameContent(b.chain[i], a.chain[i]) {
      SameContentSymmetric(a.chain[i], b.chain[i]);
    }
  }

  lemma SameLengthIsEqual(a: Replica, b: Replica, origin: Ledger)
    requires Agreeing(a, b, origin) && |a.chain| == |b.chain|
    ensures Equal(a, b)
  {
    hide SameContent, Replay;
    SameLength(a, b, origin, |a.chain|);
    assert b.chain[..|a.chain|] == b.chain;
  }

  // ---------------------------------------------------------------------------------------------
  // Announced blocks
  // ---------------------------------------------------------------------------------------------

  /** Blocks of the peer that arrive out of order: what fits is appended, and if a gap stops the batch, the answer is a
      request that makes up for everything still missing; otherwise there is no answer. */
  lemma AnnouncementCatchesUp(batch: seq<Block>, local: Replica, peer: Replica, origin: Ledger, inbound: bool,
                              chainId: string)
    requires Agreeing(local, peer, origin) && forall i :: 0 <= i < |batch| ==> batch[i] in peer.chain
    ensures var met, (height, climbed) := React(NewBlock(batch), inbound, chainId, RELIABLE, local),
                                          Climb(batch, |local.chain| - 1);
            && |met.replica.chain| == height + 1 && Agreeing(met.replica, peer, origin) && met.outcome == Accepted
            && if climbed.Accepted? then met.replies == []
               else
                 && |met.replica.chain| <= |peer.chain| && |met.replies| == 1
                 && MakesUp(met.replies[0], met.replica, peer, inbound, chainId)
  {
    hide Agreeing, MakesUp, ReceiveAll, Climb;
    AgreeingHasChains(local, peer, origin);
    PeerBatch(batch, local, peer, origin);
    if Climb(batch, |local.chain| - 1).1.Rejected? {
      PeerIsWellFormed(local, peer, origin);
      GapIsBelowPeer(batch, |local.chain| - 1, peer, origin);
      RequestMakesUp(ReceiveAll(batch, RELIABLE, local).replica, peer, origin, inbound, chainId);
    }
  }

  // A gap is reported for a block of the peer, above the height reached.
  lemma {:induction false} GapIsBelowPeer(batch: seq<Block>, height: int, peer: Replica, origin: Ledger)
    requires WellFormed(peer, origin) && forall i :: 0 <= i < |batch| ==> batch[i] in peer.chain
    requires Climb(batch, height).1.Rejected?
    ensures Climb(batch, height).1.error.NeedSync? && Climb(batch, height).0 + 1 < |peer.chain|
  {
    hide WellFormed;
    var init, b := batch[..|batch| - 1], batch[|batch| - 1];
    if Climb(init, height).1.Rejected? {
      GapIsBelowPeer(init, height, peer, origin);
    } else {
      PeerPosition(peer, origin, b);
    }
  }

  /** In particular a single block: a stale one changes nothing, the next one is appended, and one further ahead makes
      the node catch up. */
  lemma BlockCatchesUp(b: Block, local: Replica, peer: Replica, origin: Ledger, inbound: bool, chainId: string)
    requires Agreeing(local, peer, origin) && b in peer.chain
    ensures var met := React(NewBlock([b]), inbound, chainId, RELIABLE, local);
            if b.height < |local.chain| then met == Reaction(local, [], Accepted)
            else if b.height == |local.chain| then met.replies == [] && met.replica.chain == local.chain + [b]
            else
              && met.replica == local && |local.chain| < |peer.chain| && |met.replies| == 1
              && MakesUp(met.replies[0], local, peer, inbound, chainId)
  {
    hide Agreeing, MakesUp, CheckBlock;
    AgreeingHasChains(local, peer, origin);
    var batch := [b];
    assert batch[..0] == [];
    assert ReceiveAll(batch, RELIABLE, local) == Receive(b, true, local);
    PeerIsWellFormed(local, peer, origin);
    PeerPosition(peer, origin, b);
    if b.height == |local.chain| {
      NextPeerBlock(local, peer, origin, |local.chain|);
    } else if |local.chain| < b.height {
      RequestMakesUp(local, peer, origin, inbound, chainId);
    }
  }

  lemma PeerIsWellFormed(local: Replica, peer: Replica, origin: Ledger)
    requires Agreeing(local, peer, origin)
    ensures WellFormed(peer, origin)
  {
  }

  // ---------------------------------------------------------------------------------------------
  // With other keys, and while the network runs
  // ---------------------------------------------------------------------------------------------

  /** A node with account keys of its own asks in the same way, and is then caught up but for those keys if and only if
      the keys suffice. */
  lemma KeyedHandshakeCatchesUpIff(local: Replica, peer: Replica, ours: Ledger, theirs: Ledger, inbound: bool,
                                   chainId: string)
    requires Follows(local, peer, ours, theirs) && |local.chain| < |peer.chain|
    ensures Replay(peer.chain[..|local.chain|], theirs).Ok?
    ensures var met := React(Handshake(chainId, |peer.chain| - 1), inbound, chainId, RELIABLE, local);
            var common := Replay(peer.chain[..|local.chain|], theirs).value;
            && met.replies != [] && met.replies[|met.replies| - 1].GetBlocks?
            && var after := Answered(met.replies[|met.replies| - 1], local, peer, inbound, chainId);
               if KeysSuffice(OpsOf(peer.chain[|local.chain|..]), common.keys, local.ledger.keys) then
                 CatchesUp(after, local, peer)
               else
                 |after.chain| < |peer.chain|
  {
    hide Replay, KeysSuffice, CatchesUp, OpsOf, SameStart, DifferInKeys;
    FollowerRoundTrip(local, peer, ours, theirs, |local.chain|, !inbound, chainId);
  }

  /** In every run: a node that learns at moment k of a greater height than its own asks so that the answer a peer gives
      at any later moment i, applied at any moment j after that, leaves it caught up with what the peer had at i. */
  lemma RunHandshakeCatchesUp(c: Setting, run: seq<Net>, k: nat, local: nat, told: int, i: nat, peer: nat, j: nat,
                              inbound: bool)
    requires Sane(c) && IsRun(c, run) && k <= i <= j < |run| && peer < |c.origins| && local < |c.origins|
    requires |run[k].replicas| == |run[i].replicas| == |run[j].replicas| == |c.origins|
    requires c.origins[local] == c.origins[peer]
    requires run[k].replicas[local].chain != [] && run[i].replicas[peer].chain != []
    requires |run[k].replicas[local].chain| <= told
    ensures var met := React(Handshake(c.genesis.chainId, told), inbound, c.genesis.chainId, RELIABLE,
                             run[k].replicas[local]);
            var ours, theirs := run[j].replicas[local], run[i].replicas[peer];
            && ours.chain != [] && met.replies != [] && met.replies[|met.replies| - 1].GetBlocks?
            && CaughtUp(Answered(met.replies[|met.replies| - 1], ours, theirs, inbound, c.genesis.chainId),
                        ours, theirs)
  {
    hide Step, CaughtUp, IsRun;
    ChainsOnlyGrow(c, run, k, j, local);
    NetworkCatchesUp(c, run, i, peer, j, local, |run[k].replicas[local].chain|, !inbound);
  }
}
