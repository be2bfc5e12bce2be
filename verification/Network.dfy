/** Several nodes gossiping over an unreliable network: the message dispatch of `internal/p2p/node.go` and what
    round-robin slots make of it. */
module Network {
  import opened Domain
  import opened Crypto
  import opened LedgerRules
  import opened ChainRules
  import opened Bootstrap
  import opened Restart
  import opened Chain
  import opened Mempool
  import opened Admission
  import opened Production
  import opened Sync
  import opened Followers
  import Bridge

  // ---------------------------------------------------------------------------------------------
  // Dispatch
  // ---------------------------------------------------------------------------------------------

  // NewBlock and BlocksResponse both carry one block or a batch. A payload that does not decode is Undecodable.
  datatype Body =
    | Handshake(chainId: string, height: int)
    | NewBlock(announced: seq<Block>)
    | GetBlocks(from: int)
    | BlocksResponse(blocks: seq<Block>)
    | NewTransaction(payment: Payment)
    | NewAccountCreate(create: AccountCreate)
    | NewAccountClose(close: AccountClose)
    | Undecodable(part: Part)

  // The message itself, or its payload by message type; unknown types are ignored like other payloads.
  datatype Part = Envelope | HandshakePayload | GetBlocksPayload | OtherPayload

  // The replica afterwards, what is sent back on the same connection, and whether the connection stays open.
  datatype Reaction = Reaction(replica: Replica, replies: seq<Body>, outcome: Outcome)

  function React(body: Body, inbound: bool, chainId: string, io: nat -> bool, r: Replica): (res: Reaction)
    requires r.chain != []
    ensures r.chain <= res.replica.chain
  {
    var height := |r.chain| - 1;
    match body
    case Handshake(theirs, theirHeight) =>
      if theirs != chainId then Reaction(r, [], Rejected(ChainIdMismatch))
      else Reaction(r, (if inbound then [Handshake(chainId, height)] else [])
                       + (if theirHeight > height then [GetBlocks(height + 1)] else []), Accepted)
    case NewBlock(blocks) =>
      var res := ReceiveAll(blocks, io, r);
      var behind := res.outcome.Rejected? && res.outcome.error.NeedSync?;
      Reaction(res.replica, if behind then [GetBlocks(|res.replica.chain|)] else [], Accepted)
    case GetBlocks(from) => Reaction(r, [BlocksResponse(SuffixFrom(r.chain, from))], Accepted)
    case BlocksResponse(blocks) => Reaction(ReceiveAll(blocks, io, r).replica, [], Accepted)
    case Undecodable(part) => Reaction(r, [], if part.OtherPayload? then Accepted else Rejected(MalformedMessage))
    case _ => Reaction(r, [], Accepted)
  }

  /** What waits in the pools after a message, given what the payer of a gossiped payment has reserved. */
  function PoolsAfter(body: Body, io: nat -> bool, r: Replica, q: Queues, reserved: int): Queues
    requires r.chain != []
  {
    match body
    case NewBlock(blocks) => Bridge.StillWaiting(blocks, io, r, q)
    case BlocksResponse(blocks) => Bridge.StillWaiting(blocks, io, r, q)
    case NewTransaction(tx) =>
      q.(payments := AdmitTo(q.payments, tx, PaymentId, CheckAdmit(tx, r.ledger, reserved)))
    case NewAccountCreate(tx) => q.(creates := AdmitTo(q.creates, tx, CreateId, CheckCreate(tx, r.ledger)))
    case NewAccountClose(tx) => q.(closes := AdmitTo(q.closes, tx, CloseId, CheckClose(tx, r.ledger)))
    case _ => q
  }

  method DispatchBlocks(node: Bridge.Bridge, blocks: seq<Block>, io: nat -> bool) returns (replies: seq<Body>)
    requires node.Valid()
    modifies node.chain, node.chain.store, node.pool, node.createPool, node.closePool
    ensures node.Valid()
    ensures Reaction(node.Local(), replies, Accepted) == React(NewBlock(blocks), false, "", io, old(node.Local()))
    ensures node.Waiting() == Bridge.StillWaiting(blocks, io, old(node.Local()), old(node.Waiting()))
    ensures old(node.pool.Accounts()) ==> node.pool.Accounts()
  {
    replies := [];
    var applied := node.ApplyBlocks(blocks, io);
    if applied.Rejected? && applied.error.NeedSync? {
      var height := node.chain.Height();
      replies := [GetBlocks(height + 1)];
    }
  }

  method DispatchGossip(node: Bridge.Bridge, body: Body)
    requires node.Valid() && (body.NewTransaction? || body.NewAccountCreate? || body.NewAccountClose?)
    modifies node.pool, node.createPool, node.closePool
    ensures node.Valid() && node.Local() == old(node.Local())
    ensures node.Waiting() == PoolsAfter(body, RELIABLE, old(node.Local()), old(node.Waiting()),
                                         if body.NewTransaction?
                                         then old(node.pool.ReservedFor(body.payment.payer.id)) else 0)
    ensures old(node.pool.Accounts()) ==> node.pool.Accounts()
  {
    hide CheckAdmit, CheckCreate, CheckClose, AdmitTo;
    match body {
      case NewTransaction(tx) =>
        var _ := node.OnNewTransaction(tx);
      case NewAccountCreate(tx) =>
        var _ := node.OnNewAccountCreate(tx);
      case NewAccountClose(tx) =>
        var _ := node.OnNewAccountClose(tx);
    }
  }

  /** A node's chain, ledger and replies after one message, and whether it drops the connection, are exactly what React
      says, and its pools what PoolsAfter says. */
  method Dispatch(node: Bridge.Bridge, chainId: string, body: Body, inbound: bool, io: nat -> bool)
    returns (replies: seq<Body>, r: Outcome)
    requires node.Valid()
    modifies node.chain, node.chain.store, node.pool, node.createPool, node.closePool
    ensures node.Valid()
    ensures Reaction(node.Local(), replies, r) == React(body, inbound, chainId, io, old(node.Local()))
    ensures node.Waiting() == PoolsAfter(body, io, old(node.Local()), old(node.Waiting()),
                                         if body.NewTransaction?
                                         then old(node.pool.ReservedFor(body.payment.payer.id)) else 0)
    ensures old(node.pool.Accounts()) ==> node.pool.Accounts()
  {
    hide Receive, ReceiveAll, CheckAdmit, CheckCreate, CheckClose, AdmitTo, Bridge.StillWaiting;
    replies, r := [], Accepted;
    match body {
      case Handshake(theirs, theirHeight) =>
        if theirs != chainId {
          return [], Rejected(ChainIdMismatch);
        }
        var height := node.chain.Height();
        if inbound {
          replies := replies + [Handshake(chainId, height)];
        }
        if theirHeight > height {
          replies := replies + [GetBlocks(height + 1)];
        }
      case NewBlock(blocks) =>
        replies := DispatchBlocks(node, blocks, io);
      case GetBlocks(from) =>
        var blocks := node.chain.GetBlocksFrom(from);
        replies := [BlocksResponse(blocks)];
      case BlocksResponse(blocks) =>
        var _ := node.ApplyBlocks(blocks, io);
      case Undecodable(part) =>
        if !part.OtherPayload? {
          return [], Rejected(MalformedMessage);
        }
      case _ =>
        DispatchGossip(node, body);
    }
  }

  /** A sync request and its reply, each dispatched at its receiver: the reply catches the requester up with the peer as
      of the reply. */
  lemma SyncRoundTrip(local: Replica, peer: Replica, origin: Ledger, from: nat, inbound: bool, chainId: string)
    requires Agreeing(local, peer, origin) && from <= |local.chain|
    ensures var asked := React(GetBlocks(from), inbound, chainId, RELIABLE, peer);
            && asked.replica == peer && |asked.replies| == 1
            && var reaction := React(asked.replies[0], !inbound, chainId, RELIABLE, local);
               reaction.replies == [] && reaction.outcome == Accepted && CaughtUp(reaction.replica, local, peer)
  {
    hide CheckBlock, Replay, SameContent, Copies;
    if from <= |peer.chain| {
      assert SuffixFrom(peer.chain, from) == peer.chain[from..];
      SyncReplyCatchesUp(local, peer, origin, from);
    }
  }

  function BlocksIn(body: Body): seq<Block> {
    match body
    case NewBlock(blocks) => blocks
    case BlocksResponse(blocks) => blocks
    case _ => []
  }

  // ---------------------------------------------------------------------------------------------
  // Nodes and network
  // ---------------------------------------------------------------------------------------------

  datatype Signer = Signer(validator: string, key: PrivateKey)

  datatype Setting = Setting(genesis: Genesis, origins: seq<Ledger>, signers: seq<Option<Signer>>)

  /** Nodes share the genesis configuration, not their first-start ledgers; validator ids are distinct; every
      producing node passed the start-up key check; no validator key runs on two nodes. */
  ghost predicate Sane(c: Setting) {
    && c.genesis.validators != []
    && (forall i, j :: 0 <= i < j < |c.genesis.validators| ==> c.genesis.validators[i].id != c.genesis.validators[j].id)
    && GenesisValidators(c.genesis).Ok?
    && |c.signers| == |c.origins|
    && (forall n :: 0 <= n < |c.origins| ==> c.origins[n].validators == Table(c))
    && (forall n :: 0 <= n < |c.signers| && c.signers[n].Some? ==>
          CheckProducer(c.genesis, c.signers[n].value.validator, Encoded(c.signers[n].value.key, 0))
          == Ok(c.signers[n].value.key))
    && (forall n, m :: 0 <= n < m < |c.signers| && c.signers[n].Some? && c.signers[m].Some? ==>
          c.signers[n].value.key != c.signers[m].value.key)
  }

  function Table(c: Setting): KeyTable {
    if GenesisValidators(c.genesis).Ok? then GenesisValidators(c.genesis).value else map[]
  }

  datatype Packet = Packet(from: nat, to: nat, inbound: bool, body: Body)

  datatype Issue = Issue(node: nat, block: Block)

  /** A block a node has sealed and not yet tried to append. Height and previous block were read from its chain at two
      different moments, the content at a third: ProduceBlockIfReady holds no lock across them. */
  datatype Draft = Draft(node: nat, height: nat, prev: Block, payments: seq<Payment>, creates: seq<AccountCreate>,
                         closes: seq<AccountClose>, now: Timestamp)

  /** `wire` only grows: delivering does not remove, nothing must ever be delivered, and the order is free, so
      packets may be duplicated, dropped and reordered. `issued` records who broadcast which block. */
  datatype Net = Net(replicas: seq<Replica>, drafts: set<Draft>, wire: set<Packet>, issued: set<Issue>)

  ghost predicate IssuedWith(signature: Signature, issued: set<Issue>) {
    exists x :: x in issued && x.block.signature == signature
  }

  /** Nobody outside the nodes holds a validator's key: a block signature under one was made by its node, for a
      block that node broadcast. */
  ghost predicate Unforged(b: Block, table: KeyTable, issued: set<Issue>) {
    b.signature.Signed? && b.signature.message.BlockMessage? && PublicOf(b.signature.key) in table.Values
    ==> IssuedWith(b.signature, issued)
  }

  ghost predicate AllUnforged(blocks: seq<Block>, table: KeyTable, issued: set<Issue>) {
    forall i :: 0 <= i < |blocks| ==> Unforged(blocks[i], table, issued)
  }

  ghost predicate Begins(c: Setting, s: Net)
    requires c.genesis.validators != []
  {
    && s.drafts == {} && s.wire == {} && s.issued == {}
    && |s.replicas| == |c.origins|
    && forall n :: 0 <= n < |s.replicas| ==> s.replicas[n] == Replica([GenesisBlock(c.genesis)], c.origins[n])
  }

  /** Node n delivers some packet and reacts; its store may fail at any block. */
  ghost predicate Deliver(c: Setting, s: Net, t: Net, p: Packet, io: nat -> bool) {
    && p in s.wire && p.to < |s.replicas| && s.replicas[p.to].chain != []
    && var reaction := React(p.body, p.inbound, c.genesis.chainId, io, s.replicas[p.to]);
    && t.replicas == s.replicas[p.to := reaction.replica]
    && t.issued == s.issued && t.drafts == s.drafts
    && s.wire <= t.wire
    && forall q :: q in t.wire && q !in s.wire ==>
         q.from == p.to && q.to == p.from && q.inbound == !p.inbound && q.body in reaction.replies
  }

  function DraftBlock(c: Setting, d: Draft): Block
    requires d.node < |c.signers| && c.signers[d.node].Some?
  {
    var signer := c.signers[d.node].value;
    SealedBlock(d.height, d.prev, d.payments, d.creates, d.closes, signer.validator, signer.key, d.now)
  }

  /** A node only seals in its own slot. */
  ghost predicate InSlot(c: Setting, d: Draft) {
    && d.node < |c.signers| && c.signers[d.node].Some? && c.genesis.validators != []
    && 0 < d.height && SlotOwner(c.genesis, d.height) == c.signers[d.node].value.validator
  }

  /** A node seals a block of its choice, one above a height its chain has or once had, on a block that is or once was
      its tip. */
  ghost predicate Seal(c: Setting, s: Net, t: Net, d: Draft) {
    && InSlot(c, d) && d.node < |s.replicas|
    && d.height <= |s.replicas[d.node].chain| && d.prev in s.replicas[d.node].chain
    && t == s.(drafts := s.drafts + {d})
  }

  /** A node tries to append a sealed block; if its chain takes it, it broadcasts it. */
  ghost predicate Append(c: Setting, s: Net, t: Net, d: Draft) {
    && d in s.drafts && InSlot(c, d) && d.node < |s.replicas| && s.replicas[d.node].chain != []
    && var r, b := s.replicas[d.node], DraftBlock(c, d);
    && var next := CheckBlock(b, r.chain[|r.chain| - 1], r.ledger);
    && next.Ok?
    && t.replicas == s.replicas[d.node := Replica(r.chain + [b], next.value)]
    && t.issued == s.issued + {Issue(d.node, b)} && t.drafts == s.drafts
    && s.wire <= t.wire
    && forall q :: q in t.wire && q !in s.wire ==> q.from == d.node && q.body == NewBlock([b])
  }

  /** Sealing and appending at one go: node n seals on its own tip, in its own slot, appends and broadcasts. */
  ghost predicate Produce(c: Setting, s: Net, t: Net, n: nat, payments: seq<Payment>, creates: seq<AccountCreate>,
                          closes: seq<AccountClose>, now: Timestamp)
  {
    && n < |s.replicas| && n < |c.signers| && c.signers[n].Some? && s.replicas[n].chain != []
    && c.genesis.validators != []
    && var chain, signer := s.replicas[n].chain, c.signers[n].value;
    && var tip, height := chain[|chain| - 1], |chain|;
    && SlotOwner(c.genesis, height) == signer.validator
    && var b := SealedBlock(height, tip, payments, creates, closes, signer.validator, signer.key, now);
    && var next := CheckBlock(b, tip, s.replicas[n].ledger);
    && next.Ok?
    && t.replicas == s.replicas[n := Replica(chain + [b], next.value)]
    && t.issued == s.issued + {Issue(n, b)} && t.drafts == s.drafts
    && s.wire <= t.wire
    && forall q :: q in t.wire && q !in s.wire ==> q.from == n && q.body == NewBlock([b])
  }

  /** Anything can turn up on the wire, well-formed or not, short of forged block signatures. */
  ghost predicate Inject(c: Setting, s: Net, t: Net, p: Packet) {
    && AllUnforged(BlocksIn(p.body), Table(c), s.issued)
    && t == s.(wire := s.wire + {p})
  }

  /** A stale seal that the chain still takes is no different from a seal on the current tip: appending it is producing
      at one go, whatever the chain did between the reads. */
  lemma StaleSealIsCurrent(c: Setting, s: Net, t: Net, d: Draft, origin: Ledger)
    requires Append(c, s, t, d) && WellFormed(s.replicas[d.node], origin)
    ensures d.height == |s.replicas[d.node].chain|
    ensures Produce(c, s, t, d.node, d.payments, d.creates, d.closes, d.now)
  {
    hide Run, CheckItems;
    var r, signer := s.replicas[d.node], c.signers[d.node].value;
    var tip := r.chain[|r.chain| - 1];
    AcceptedHeights(r.chain, origin);
    SealNamesItsParent(d.height, d.prev, tip, d.payments, d.creates, d.closes, signer.validator, signer.key, d.now,
                       r.ledger.validators);
  }

  lemma SealNamesItsParent(height: int, prev: Block, tip: Block, payments: seq<Payment>, creates: seq<AccountCreate>,
                           closes: seq<AccountClose>, validator: string, key: PrivateKey, now: Timestamp,
                           table: KeyTable)
    requires CheckHeader(SealedBlock(height, prev, payments, creates, closes, validator, key, now), tip, table)
             == Accepted
    ensures height == tip.height + 1
    ensures SealedBlock(height, prev, payments, creates, closes, validator, key, now)
            == SealedBlock(height, tip, payments, creates, closes, validator, key, now)
  {
  }

  /** Producing at one go is a seal and an append. */
  lemma ProduceIsSealAndAppend(c: Setting, s: Net, t: Net, n: nat, payments: seq<Payment>, creates: seq<AccountCreate>,
                               closes: seq<AccountClose>, now: Timestamp, d: Draft)
    requires Produce(c, s, t, n, payments, creates, closes, now)
    requires d == Draft(n, |s.replicas[n].chain|, s.replicas[n].chain[|s.replicas[n].chain| - 1], payments, creates,
                        closes, now)
    ensures Seal(c, s, s.(drafts := s.drafts + {d}), d)
    ensures Append(c, s.(drafts := s.drafts + {d}), t.(drafts := s.drafts + {d}), d)
  {
  }

  /** A slot that ends in a block is a Produce step of the network, whoever the block then reaches. */
  lemma SlotIsProduceStep(c: Setting, s: Net, t: Net, n: nat, q: Queues, after: Replica, left: Queues, b: Block,
                          picked: Picked, trace: Trace, max: nat, now: Timestamp)
    requires c.genesis.validators != [] && n < |s.replicas| && n < |c.signers| && n < |c.origins| && c.signers[n].Some?
    requires WellFormed(s.replicas[n], c.origins[n])
    requires SlotOwner(c.genesis, |s.replicas[n].chain|) == c.signers[n].value.validator
    requires Bridge.SlotOutcome(s.replicas[n], q, after, left, Some(b), picked, trace, max, true,
                                c.signers[n].value.validator, c.signers[n].value.key, now)
    requires t.replicas == s.replicas[n := after] && t.issued == s.issued + {Issue(n, b)}
    requires t.drafts == s.drafts && s.wire <= t.wire
    requires forall p :: p in t.wire && p !in s.wire ==> p.from == n && p.body == NewBlock([b])
    ensures Produce(c, s, t, n, picked.payments, picked.creates, picked.closes, now)
  {
    var signer := c.signers[n].value;
    Bridge.SlotExtendsChain(s.replicas[n], c.origins[n], q, after, left, b, picked, trace, max,
                            signer.validator, signer.key, now);
  }

  ghost predicate Step(c: Setting, s: Net, t: Net) {
    || (exists p, io :: Deliver(c, s, t, p, io))
    || (exists d :: Seal(c, s, t, d))
    || (exists d :: Append(c, s, t, d))
    || (exists p :: Inject(c, s, t, p))
  }

  ghost predicate IsRun(c: Setting, run: seq<Net>) {
    && c.genesis.validators != [] && run != [] && Begins(c, run[0])
    && forall i :: 0 <= i < |run| - 1 ==> Step(c, run[i], run[i + 1])
  }

  // ---------------------------------------------------------------------------------------------
  // The invariant
  // ---------------------------------------------------------------------------------------------

  ghost predicate ReplicaOk(c: Setting, r: Replica, origin: Ledger, issued: set<Issue>)
    requires c.genesis.validators != []
  {
    WellFormed(r, origin) && r.chain[0] == GenesisBlock(c.genesis) && AllUnforged(r.chain, Table(c), issued)
  }

  /** A broadcast block stands in its issuer's chain, at its height, in the issuer's slot, under its signature. */
  ghost predicate IssueOk(c: Setting, x: Issue, replicas: seq<Replica>)
    requires c.genesis.validators != []
  {
    && x.node < |c.signers| && x.node < |replicas| && c.signers[x.node].Some?
    && 0 < x.block.height < |replicas[x.node].chain|
    && replicas[x.node].chain[x.block.height] == x.block
    && SlotOwner(c.genesis, x.block.height) == c.signers[x.node].value.validator
    && x.block.signature.Signed? && x.block.signature.message == BlockBytes(x.block)
  }

  ghost predicate Inv(c: Setting, s: Net)
    requires c.genesis.validators != []
  {
    && |s.replicas| == |c.origins|
    && (forall n :: 0 <= n < |s.replicas| ==> ReplicaOk(c, s.replicas[n], c.origins[n], s.issued))
    && (forall p :: p in s.wire ==> AllUnforged(BlocksIn(p.body), Table(c), s.issued))
    && (forall x :: x in s.issued ==> IssueOk(c, x, s.replicas))
  }

  /** The chain of n grows from s to t and no other changes. */
  ghost predicate Grows(s: Net, t: Net, n: nat) {
    && n < |s.replicas| == |t.replicas|
    && s.replicas[n].chain <= t.replicas[n].chain
    && forall m :: 0 <= m < |s.replicas| && m != n ==> t.replicas[m] == s.replicas[m]
  }

  lemma MoreIssued(blocks: seq<Block>, table: KeyTable, issued: set<Issue>, more: set<Issue>)
    requires AllUnforged(blocks, table, issued) && issued <= more
    ensures AllUnforged(blocks, table, more)
  {
    forall i | 0 <= i < |blocks| ensures Unforged(blocks[i], table, more) {
      assert Unforged(blocks[i], table, issued);
    }
  }

  lemma IssuesStay(c: Setting, s: Net, t: Net, n: nat)
    requires c.genesis.validators != [] && Grows(s, t, n)
    requires forall x :: x in s.issued ==> IssueOk(c, x, s.replicas)
    ensures forall x :: x in s.issued ==> IssueOk(c, x, t.replicas)
  {
    forall x | x in s.issued ensures IssueOk(c, x, t.replicas) {
      assert IssueOk(c, x, s.replicas);
      if x.node == n {
        assert t.replicas[n].chain[x.block.height] == s.replicas[n].chain[x.block.height];
      }
    }
  }

  lemma {:induction false} ReceivedUnforged(batch: seq<Block>, io: nat -> bool, r: Replica, table: KeyTable,
                                            issued: set<Issue>)
    requires r.chain != [] && AllUnforged(r.chain, table, issued) && AllUnforged(batch, table, issued)
    ensures AllUnforged(ReceiveAll(batch, io, r).replica.chain, table, issued)
  {
    if batch != [] {
      var init, n := batch[..|batch| - 1], |batch| - 1;
      assert AllUnforged(init, table, issued) by {
        forall i | 0 <= i < |init| ensures Unforged(init[i], table, issued) {
          assert Unforged(batch[i], table, issued);
        }
      }
      ReceivedUnforged(init, io, r, table, issued);
      assert Unforged(batch[n], table, issued);
    }
  }

  lemma ReactKeepsReplica(c: Setting, body: Body, inbound: bool, io: nat -> bool, r: Replica, origin: Ledger,
                          issued: set<Issue>)
    requires c.genesis.validators != [] && ReplicaOk(c, r, origin, issued)
    requires AllUnforged(BlocksIn(body), Table(c), issued)
    ensures ReplicaOk(c, React(body, inbound, c.genesis.chainId, io, r).replica, origin, issued)
  {
    if body.NewBlock? || body.BlocksResponse? {
      ReceiveAllKeepsWellFormed(BlocksIn(body), io, r, origin);
      ReceivedUnforged(BlocksIn(body), io, r, Table(c), issued);
    }
  }

  lemma RepliesUnforged(c: Setting, body: Body, inbound: bool, io: nat -> bool, r: Replica, issued: set<Issue>,
                        reply: Body)
    requires r.chain != [] && AllUnforged(r.chain, Table(c), issued)
    requires reply in React(body, inbound, c.genesis.chainId, io, r).replies
    ensures AllUnforged(BlocksIn(reply), Table(c), issued)
  {
    if body.GetBlocks? {
      var suffix := SuffixFrom(r.chain, body.from);
      assert reply == BlocksResponse(suffix);
      forall i | 0 <= i < |suffix| ensures Unforged(suffix[i], Table(c), issued) {
        assert suffix[i] == r.chain[|r.chain| - |suffix| + i];
      }
    }
  }

  lemma DeliverKeeps(c: Setting, s: Net, t: Net, p: Packet, io: nat -> bool)
    requires c.genesis.validators != [] && Inv(c, s) && Deliver(c, s, t, p, io)
    ensures Inv(c, t) && Grows(s, t, p.to)
  {
    var r := s.replicas[p.to];
    ReactKeepsReplica(c, p.body, p.inbound, io, r, c.origins[p.to], s.issued);
    IssuesStay(c, s, t, p.to);
    forall q | q in t.wire && q !in s.wire ensures AllUnforged(BlocksIn(q.body), Table(c), t.issued) {
      RepliesUnforged(c, p.body, p.inbound, io, r, s.issued, q.body);
    }
  }

  lemma SealedIsSigned(height: int, prev: Block, payments: seq<Payment>, creates: seq<AccountCreate>,
                       closes: seq<AccountClose>, validator: string, key: PrivateKey, now: Timestamp)
    ensures var b := SealedBlock(height, prev, payments, creates, closes, validator, key, now);
            b.height == height && b.validator == validator && b.signature == Sign(key, BlockBytes(b))
  {
    var b := SealedBlock(height, prev, payments, creates, closes, validator, key, now);
    var hashed := b.(signature := NoSignature);
    assert SameContent(b, hashed);
    HashCommitsToContent(b, hashed);
  }

  lemma AppendedReplicaOk(c: Setting, r: Replica, origin: Ledger, b: Block, issued: set<Issue>)
    requires c.genesis.validators != [] && ReplicaOk(c, r, origin, issued) && Unforged(b, Table(c), issued)
    requires CheckBlock(b, r.chain[|r.chain| - 1], r.ledger).Ok?
    ensures ReplicaOk(c, Replica(r.chain + [b], CheckBlock(b, r.chain[|r.chain| - 1], r.ledger).value), origin, issued)
  {
    ReplaySnoc(r.chain, b, origin);
    var after := r.chain + [b];
    forall i | 0 <= i < |after| ensures Unforged(after[i], Table(c), issued) {
      assert i < |r.chain| ==> after[i] == r.chain[i];
    }
  }

  lemma ProduceKeeps(c: Setting, s: Net, t: Net, n: nat, payments: seq<Payment>, creates: seq<AccountCreate>,
                     closes: seq<AccountClose>, now: Timestamp)
    requires c.genesis.validators != [] && Inv(c, s) && Produce(c, s, t, n, payments, creates, closes, now)
    ensures Inv(c, t) && Grows(s, t, n)
  {
    var chain, signer := s.replicas[n].chain, c.signers[n].value;
    var b := SealedBlock(|chain|, chain[|chain| - 1], payments, creates, closes, signer.validator, signer.key, now);
    SealedIsSigned(|chain|, chain[|chain| - 1], payments, creates, closes, signer.validator, signer.key, now);
    assert Issue(n, b) in t.issued;
    assert Unforged(b, Table(c), t.issued);
    forall m | 0 <= m < |s.replicas| ensures ReplicaOk(c, s.replicas[m], c.origins[m], t.issued) {
      MoreIssued(s.replicas[m].chain, Table(c), s.issued, t.issued);
    }
    AppendedReplicaOk(c, s.replicas[n], c.origins[n], b, t.issued);
    IssuesStay(c, s, t, n);
    forall q | q in t.wire ensures AllUnforged(BlocksIn(q.body), Table(c), t.issued) {
      if q in s.wire {
        MoreIssued(BlocksIn(q.body), Table(c), s.issued, t.issued);
      }
    }
  }

  lemma StepKeeps(c: Setting, s: Net, t: Net) returns (n: nat)
    requires c.genesis.validators != [] && Inv(c, s) && Step(c, s, t)
    ensures Inv(c, t)
    ensures Grows(s, t, n) || t.replicas == s.replicas
    ensures s.issued <= t.issued
  {
    hide IssueOk, React, CheckBlock;
    n := 0;
    if p, io :| Deliver(c, s, t, p, io) {
      DeliverKeeps(c, s, t, p, io);
      n := p.to;
    } else if d :| Seal(c, s, t, d) {
    } else if d :| Append(c, s, t, d) {
      StaleSealIsCurrent(c, s, t, d, c.origins[d.node]);
      ProduceKeeps(c, s, t, d.node, d.payments, d.creates, d.closes, d.now);
      n := d.node;
    }
  }

  lemma {:induction false} RunKeeps(c: Setting, run: seq<Net>, i: nat)
    requires IsRun(c, run) && i < |run|
    ensures Inv(c, run[i])
  {
    if i == 0 {
      forall n | 0 <= n < |run[0].replicas| ensures ReplicaOk(c, run[0].replicas[n], c.origins[n], {}) {
        GenesisReplicaOk(c, c.origins[n]);
      }
    } else {
      RunKeeps(c, run, i - 1);
      assert Step(c, run[i - 1], run[i - 1 + 1]);
      var _ := StepKeeps(c, run[i - 1], run[i]);
    }
  }

  lemma GenesisReplicaOk(c: Setting, origin: Ledger)
    requires c.genesis.validators != []
    ensures ReplicaOk(c, Replica([GenesisBlock(c.genesis)], origin), origin, {})
  {
    assert Replay([GenesisBlock(c.genesis)], origin) == Ok(origin);
    GenesisBlockIsGenesis(c.genesis);
  }

  // ---------------------------------------------------------------------------------------------
  // Agreement
  // ---------------------------------------------------------------------------------------------

  lemma SameSlotSameNode(c: Setting, n: nat, m: nat)
    requires Sane(c) && n < |c.signers| && m < |c.signers| && c.signers[n].Some? && c.signers[m].Some?
    requires c.signers[n].value.validator == c.signers[m].value.validator
    ensures n == m
  {
    assert c.signers[n].value.key == c.signers[m].value.key;
  }

  lemma OneIssuePerHeight(c: Setting, s: Net, x: Issue, y: Issue)
    requires Sane(c) && Inv(c, s) && x in s.issued && y in s.issued && x.block.height == y.block.height
    ensures x == y
  {
    assert IssueOk(c, x, s.replicas) && IssueOk(c, y, s.replicas);
    SameSlotSameNode(c, x.node, y.node);
  }

  lemma BlockWasIssued(c: Setting, s: Net, n: nat, i: nat) returns (x: Issue)
    requires Sane(c) && Inv(c, s) && n < |s.replicas| && 0 < i < |s.replicas[n].chain|
    ensures x in s.issued && SameContent(x.block, s.replicas[n].chain[i])
  {
    var chain, origin := s.replicas[n].chain, c.origins[n];
    assert ReplicaOk(c, s.replicas[n], origin, s.issued);
    ReplayIsRun(chain, origin);
    assert LinkedAt(chain, i, origin.validators);
    assert Unforged(chain[i], Table(c), s.issued);
    x :| x in s.issued && x.block.signature == chain[i].signature;
    assert IssueOk(c, x, s.replicas);
    HashCommitsToContent(x.block, chain[i]);
  }

  lemma SameContentTransitive(a: Block, b: Block, d: Block)
    requires SameContent(a, b) && SameContent(a, d)
    ensures SameContent(b, d)
  {
    HashCommitsToContent(a, b);
    HashCommitsToContent(a, d);
    HashCommitsToContent(b, d);
  }

  lemma AgreeAt(c: Setting, s: Net, n: nat, m: nat, i: nat)
    requires Sane(c) && Inv(c, s) && n < |s.replicas| && m < |s.replicas|
    requires i < |s.replicas[n].chain| && i < |s.replicas[m].chain|
    ensures SameContent(s.replicas[n].chain[i], s.replicas[m].chain[i])
  {
    if i == 0 {
      assert ReplicaOk(c, s.replicas[n], c.origins[n], s.issued) && ReplicaOk(c, s.replicas[m], c.origins[m], s.issued);
      SameContentReflexive(GenesisBlock(c.genesis));
    } else {
      var x := BlockWasIssued(c, s, n, i);
      var y := BlockWasIssued(c, s, m, i);
      AcceptedHeights(s.replicas[n].chain, c.origins[n]);
      AcceptedHeights(s.replicas[m].chain, c.origins[m]);
      OneIssuePerHeight(c, s, x, y);
      SameContentTransitive(x.block, s.replicas[n].chain[i], s.replicas[m].chain[i]);
    }
  }

  lemma {:induction false} ChainsOnlyGrow(c: Setting, run: seq<Net>, i: nat, j: nat, n: nat)
    requires IsRun(c, run) && i <= j < |run| && n < |c.origins|
    ensures |run[i].replicas| == |run[j].replicas| == |c.origins|
    ensures run[i].replicas[n].chain <= run[j].replicas[n].chain
    ensures run[i].issued <= run[j].issued
    decreases j - i
  {
    RunKeeps(c, run, i);
    if i < j {
      assert Step(c, run[i], run[i + 1]);
      var m := StepKeeps(c, run[i], run[i + 1]);
      ChainsOnlyGrow(c, run, i + 1, j, n);
    }
  }

  /** At most one block is ever broadcast per height, over the whole run and all nodes. */
  lemma OneBlockPerHeight(c: Setting, run: seq<Net>, i: nat, j: nat, x: Issue, y: Issue)
    requires Sane(c) && IsRun(c, run) && i <= j < |run|
    requires x in run[i].issued && y in run[j].issued && x.block.height == y.block.height
    ensures x == y
  {
    RunKeeps(c, run, i);
    RunKeeps(c, run, j);
    assert IssueOk(c, x, run[i].replicas);
    ChainsOnlyGrow(c, run, i, j, x.node);
    OneIssuePerHeight(c, run[j], x, y);
  }

  /** Reads of an earlier height and an earlier tip, in whichever order, are what Seal allows. */
  lemma EarlierReadsMaySeal(c: Setting, run: seq<Net>, i: nat, j: nat, k: nat, d: Draft)
    requires IsRun(c, run) && i <= k < |run| && j <= k && InSlot(c, d) && d.node < |c.origins|
    requires |run[i].replicas| == |run[j].replicas| == |c.origins|
    requires run[j].replicas[d.node].chain != []
    requires d.height == |run[i].replicas[d.node].chain|
    requires d.prev == run[j].replicas[d.node].chain[|run[j].replicas[d.node].chain| - 1]
    ensures Seal(c, run[k], run[k].(drafts := run[k].drafts + {d}), d)
  {
    hide Step;
    ChainsOnlyGrow(c, run, i, k, d.node);
    ChainsOnlyGrow(c, run, j, k, d.node);
    var earlier, chain := run[j].replicas[d.node].chain, run[k].replicas[d.node].chain;
    assert chain[|earlier| - 1] == d.prev;
  }

  /** Agreement: the chains of any two nodes, taken at any two moments of a run, hold the same content at every
      common height. */
  lemma ChainsAgree(c: Setting, run: seq<Net>, i: nat, n: nat, j: nat, m: nat, h: nat)
    requires Sane(c) && IsRun(c, run) && i <= j < |run| && n < |c.origins| && m < |c.origins|
    requires |run[i].replicas| == |run[j].replicas| == |c.origins|
    requires h < |run[i].replicas[n].chain| && h < |run[j].replicas[m].chain|
    ensures SameContent(run[i].replicas[n].chain[h], run[j].replicas[m].chain[h])
  {
    RunKeeps(c, run, j);
    ChainsOnlyGrow(c, run, i, j, n);
    assert run[i].replicas[n].chain[h] == run[j].replicas[n].chain[h];
    AgreeAt(c, run[j], n, m, h);
  }

  /** Two nodes with the same first-start ledger have the same ledger whenever their chains are equally long, also
      when they get that long at different moments. */
  lemma LedgersAgree(c: Setting, run: seq<Net>, i: nat, n: nat, j: nat, m: nat)
    requires Sane(c) && IsRun(c, run) && i <= j < |run| && n < |c.origins| && m < |c.origins|
    requires |run[i].replicas| == |run[j].replicas| == |c.origins|
    requires c.origins[n] == c.origins[m]
    requires |run[i].replicas[n].chain| == |run[j].replicas[m].chain|
    ensures run[i].replicas[n].ledger == run[j].replicas[m].ledger
  {
    RunKeeps(c, run, i);
    RunKeeps(c, run, j);
    var p, q := run[i].replicas[n].chain, run[j].replicas[m].chain;
    assert ReplicaOk(c, run[i].replicas[n], c.origins[n], run[i].issued);
    assert ReplicaOk(c, run[j].replicas[m], c.origins[m], run[j].issued);
    forall h | 0 <= h < |p| ensures SameContent(p[h], q[h]) {
      ChainsAgree(c, run, i, n, j, m, h);
    }
    SameContentsSameLedger(p, q, c.origins[n]);
  }

  /** In every run: a node that asks a peer for blocks, from its next height at the time or any earlier one, and gets an
      answer that the peer gave at moment i, is caught up with what the peer had then when it applies it at moment j. */
  lemma NetworkCatchesUp(c: Setting, run: seq<Net>, i: nat, peer: nat, j: nat, local: nat, from: nat, inbound: bool)
    requires Sane(c) && IsRun(c, run) && i <= j < |run| && peer < |c.origins| && local < |c.origins|
    requires |run[i].replicas| == |run[j].replicas| == |c.origins|
    requires c.origins[local] == c.origins[peer] && from <= |run[j].replicas[local].chain|
    requires run[i].replicas[peer].chain != [] && run[j].replicas[local].chain != []
    ensures var theirs, ours := run[i].replicas[peer], run[j].replicas[local];
            var asked := React(GetBlocks(from), inbound, c.genesis.chainId, RELIABLE, theirs);
            && |asked.replies| == 1
            && CaughtUp(React(asked.replies[0], !inbound, c.genesis.chainId, RELIABLE, ours).replica, ours, theirs)
  {
    hide Step, SameContent, Replay, CaughtUp, Copies;
    var theirs, ours := run[i].replicas[peer], run[j].replicas[local];
    RunKeeps(c, run, i);
    RunKeeps(c, run, j);
    assert ReplicaOk(c, theirs, c.origins[peer], run[i].issued) && ReplicaOk(c, ours, c.origins[local], run[j].issued);
    forall h | 0 <= h < |ours.chain| && h < |theirs.chain| ensures SameContent(ours.chain[h], theirs.chain[h]) {
      ChainsAgree(c, run, i, peer, j, local, h);
      SameContentSymmetric(theirs.chain[h], ours.chain[h]);
    }
    SyncRoundTrip(ours, theirs, c.origins[local], from, inbound, c.genesis.chainId);
  }

  /** The same with account keys of its own, the peer's configuration otherwise: the missing blocks are appended, with
      the peer's ledger but for the account keys, if and only if the node agrees with what the peer had at its height
      on every account whose key those blocks need; if not, it stays behind. */
  lemma NetworkCatchesUpIff(c: Setting, run: seq<Net>, i: nat, peer: nat, j: nat, local: nat, from: nat, inbound: bool)
    requires Sane(c) && IsRun(c, run) && i <= j < |run| && peer < |c.origins| && local < |c.origins|
    requires |run[i].replicas| == |run[j].replicas| == |c.origins|
    requires DifferInKeys(c.origins[local], c.origins[peer])
    requires run[j].replicas[local].chain != []
             && from <= |run[j].replicas[local].chain| < |run[i].replicas[peer].chain|
    ensures Replay(run[i].replicas[peer].chain[..|run[j].replicas[local].chain|], c.origins[peer]).Ok?
    ensures var theirs, ours := run[i].replicas[peer], run[j].replicas[local];
            var n, asked := |ours.chain|, React(GetBlocks(from), inbound, c.genesis.chainId, RELIABLE, theirs);
            var common, missing := Replay(theirs.chain[..n], c.origins[peer]).value, theirs.chain[n..];
            && |asked.replies| == 1
            && var after := React(asked.replies[0], !inbound, c.genesis.chainId, RELIABLE, ours).replica;
               if KeysSuffice(OpsOf(missing), common.keys, ours.ledger.keys) then
                 CatchesUp(after, ours, theirs)
               else
                 |after.chain| < |theirs.chain|
  {
    hide Step, Replay, KeysSuffice, CatchesUp, OpsOf, React, Follows;
    RunFollows(c, run, i, peer, j, local);
    FollowerRoundTrip(run[j].replicas[local], run[i].replicas[peer], c.origins[local], c.origins[peer], from, inbound,
                      c.genesis.chainId);
  }

  lemma RunFollows(c: Setting, run: seq<Net>, i: nat, peer: nat, j: nat, local: nat)
    requires Sane(c) && IsRun(c, run) && i <= j < |run| && peer < |c.origins| && local < |c.origins|
    requires |run[i].replicas| == |run[j].replicas| == |c.origins|
    requires DifferInKeys(c.origins[local], c.origins[peer])
    ensures Follows(run[j].replicas[local], run[i].replicas[peer], c.origins[local], c.origins[peer])
  {
    hide Step, SameContent, Replay, DifferInKeys;
    var theirs, ours := run[i].replicas[peer], run[j].replicas[local];
    RunKeeps(c, run, i);
    RunKeeps(c, run, j);
    assert ReplicaOk(c, theirs, c.origins[peer], run[i].issued) && ReplicaOk(c, ours, c.origins[local], run[j].issued);
    forall h | 0 <= h < |ours.chain| && h < |theirs.chain| ensures SameContent(ours.chain[h], theirs.chain[h]) {
      ChainsAgree(c, run, i, peer, j, local, h);
      SameContentSymmetric(theirs.chain[h], ours.chain[h]);
    }
  }

  lemma FollowerRoundTrip(local: Replica, peer: Replica, ours: Ledger, theirs: Ledger, from: nat, inbound: bool,
                          chainId: string)
    requires Follows(local, peer, ours, theirs) && from <= |local.chain| < |peer.chain|
    ensures Replay(peer.chain[..|local.chain|], theirs).Ok?
    ensures var n, asked := |local.chain|, React(GetBlocks(from), inbound, chainId, RELIABLE, peer);
            var common, missing := Replay(peer.chain[..n], theirs).value, peer.chain[n..];
            && |asked.replies| == 1
            && var after := React(asked.replies[0], !inbound, chainId, RELIABLE, local).replica;
               if KeysSuffice(OpsOf(missing), common.keys, local.ledger.keys) then
                 CatchesUp(after, local, peer)
               else
                 |after.chain| < |peer.chain|
  {
    hide Replay, KeysSuffice, CatchesUp, OpsOf, ReceiveAll;
    FollowerCatchesUpIff(local, peer, ours, theirs, from);
    assert SuffixFrom(peer.chain, from) == peer.chain[from..];
  }

  lemma SameContentSymmetric(a: Block, b: Block)
    requires SameContent(a, b)
    ensures SameContent(b, a)
  {
    HashCommitsToContent(a, b);
    HashCommitsToContent(b, a);
  }
}
