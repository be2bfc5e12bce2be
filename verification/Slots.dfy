/** Whose turn it is: the round robin of `internal/consensus/poa/producer.go`. */
module Slots {
  import opened Bootstrap
  import opened Restart
  import opened Production

  /** The genesis entry whose turn a height is: the first entry at height zero, the next one at the next height, and
      the first again after the last. */
  function Turn(genesis: Genesis, height: nat): (i: nat)
    requires genesis.validators != []
    ensures i < |genesis.validators|
  {
    if height == 0 then 0
    else if Turn(genesis, height - 1) + 1 == |genesis.validators| then 0
    else Turn(genesis, height - 1) + 1
  }

  lemma NextRemainder(height: nat, n: nat)
    requires 0 < n
    ensures (height + 1) % n == if height % n + 1 == n then 0 else height % n + 1
  {
    var q, r := height / n, height % n;
    assert height == n * q + r;
    if r + 1 == n {
      assert height + 1 == n * (q + 1);
      RemainderIs(q + 1, 0, n);
    } else {
      RemainderIs(q, r + 1, n);
    }
  }

  lemma MultiplesApart(n: nat, p: int, q: int)
    requires p < q
    ensures n * p + n <= n * q
  {
    assert n * q == n * p + n + n * (q - p - 1);
    assert 0 <= n * (q - p - 1);
  }

  lemma SameRemainder(n: nat, p: int, q: int, r: int, s: int)
    requires n * p + s == n * q + r && 0 <= r < n && 0 <= s < n
    ensures r == s
  {
    if p < q {
      MultiplesApart(n, p, q);
    } else if q < p {
      MultiplesApart(n, q, p);
    }
  }

  lemma RemainderIs(q: nat, r: nat, n: nat)
    requires r < n
    ensures (n * q + r) % n == r
  {
    var x := n * q + r;
    SameRemainder(n, x / n, q, r, x % n);
  }

  lemma {:induction false} TurnIsRemainder(genesis: Genesis, height: nat)
    requires genesis.validators != []
    ensures Turn(genesis, height) == height % |genesis.validators|
  {
    if height > 0 {
      TurnIsRemainder(genesis, height - 1);
      NextRemainder(height - 1, |genesis.validators|);
    }
  }

  /** Slots go round the genesis entries: the genesis block names the owner of height zero, and a producer may produce
      at exactly the heights whose turn carries its id. */
  lemma SlotsGoRound(genesis: Genesis, height: nat, p: Producer)
    requires genesis.validators != [] && p.genesis == genesis
    ensures SlotOwner(genesis, height) == genesis.validators[Turn(genesis, height)].id
    ensures SlotOwner(genesis, 0) == GenesisBlock(genesis).validator
    ensures p.CanProduce(height) <==> p.validator == genesis.validators[Turn(genesis, height)].id
  {
    TurnIsRemainder(genesis, height);
    TurnIsRemainder(genesis, 0);
  }

  lemma {:induction false} TurnsAhead(genesis: Genesis, height: nat, k: nat)
    requires genesis.validators != [] && k < |genesis.validators|
    ensures var i := Turn(genesis, height) + k;
            Turn(genesis, height + k) == if i < |genesis.validators| then i else i - |genesis.validators|
  {
    if k > 0 {
      TurnsAhead(genesis, height, k - 1);
    }
  }

  /** The height in the round that starts at height at which it is entry i's turn. */
  function NextTurn(genesis: Genesis, height: nat, i: nat): (k: nat)
    requires i < |genesis.validators|
    ensures height <= k < height + |genesis.validators|
  {
    var now := Turn(genesis, height);
    if now <= i then height + (i - now) else height + (i + |genesis.validators| - now)
  }

  /** Of any |validators| consecutive heights, exactly one is the turn of each entry. */
  lemma EveryEntryHasOneTurn(genesis: Genesis, height: nat, i: nat, k: nat)
    requires i < |genesis.validators| && height <= k < height + |genesis.validators|
    ensures Turn(genesis, k) == i <==> k == NextTurn(genesis, height, i)
  {
    TurnsAhead(genesis, height, k - height);
  }

  /** So every producer has a slot among any |validators| consecutive heights, and, with distinct ids, only one. */
  lemma EveryProducerHasASlot(p: Producer, height: nat, i: nat, k: nat)
    requires i < |p.genesis.validators| && p.genesis.validators[i].id == p.validator
    requires height <= k < height + |p.genesis.validators|
    ensures p.CanProduce(NextTurn(p.genesis, height, i))
    ensures (forall m, n :: 0 <= m < n < |p.genesis.validators| ==>
               p.genesis.validators[m].id != p.genesis.validators[n].id)
            ==> (p.CanProduce(k) <==> k == NextTurn(p.genesis, height, i))
  {
    var next := NextTurn(p.genesis, height, i);
    SlotsGoRound(p.genesis, next, p);
    SlotsGoRound(p.genesis, k, p);
    EveryEntryHasOneTurn(p.genesis, height, i, next);
    EveryEntryHasOneTurn(p.genesis, height, i, k);
  }
}
