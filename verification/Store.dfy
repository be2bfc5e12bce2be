/** The bbolt store: one bucket of blocks keyed by height, one of ledger state. Each `db.Update` either
    happens in full or, when the database reports an error, not at all. */
module Store {
  import opened Domain
  import opened LedgerRules
  import opened LedgerState

  /** What marshalState writes: no validator keys and no account keys. */
  datatype Persisted = Persisted(accounts: Accounts, allowed: set<AccountID>, taxes: TaxTable)

  function Project(l: Ledger): Persisted { Persisted(l.accounts, l.allowed, l.taxes) }

  function Restore(p: Persisted): Ledger { Ledger(p.accounts, p.taxes, p.allowed, map[], map[]) }

  datatype Disk = Disk(blocks: map<int, Block>, state: Option<Persisted>)

  ghost predicate KeyedByHeight(blocks: map<int, Block>) {
    forall h :: h in blocks ==> blocks[h].height == h
  }

  ghost predicate Ascending(blocks: seq<Block>) {
    forall i, j :: 0 <= i < j < |blocks| ==> blocks[i].height <= blocks[j].height
  }

  /** Every stored block once, by increasing height. */
  ghost predicate IsListing(list: seq<Block>, blocks: map<int, Block>) {
    && (forall i, j :: 0 <= i < j < |list| ==> list[i].height < list[j].height)
    && (forall b :: b in list <==> b.height in blocks && blocks[b.height] == b)
  }

  function Prefix(blocks: seq<Block>): map<int, Block> {
    map h | 0 <= h < |blocks| :: blocks[h]
  }

  lemma {:induction false} AtLeastIndex(list: seq<Block>, m: map<int, Block>, i: nat)
    requires IsListing(list, m) && i < |list|
    requires forall h :: h in m ==> 0 <= h
    ensures i <= list[i].height
  {
    assert list[i] in list;
    if i > 0 {
      AtLeastIndex(list, m, i - 1);
    }
  }

  lemma {:induction false} NoGaps(list: seq<Block>, chain: seq<Block>, k: nat)
    requires forall i :: 0 <= i < |chain| ==> chain[i].height == i
    requires IsListing(list, Prefix(chain)) && k < |list|
    ensures list[k].height == k
  {
    var m := Prefix(chain);
    AtLeastIndex(list, m, k);
    if k > 0 {
      NoGaps(list, chain, k - 1);
    }
    if list[k].height > k {
      assert list[k] in list;
      assert chain[k] in list;
      var j :| 0 <= j < |list| && list[j] == chain[k];
      if j < k {
        NoGaps(list, chain, j);
      }
    }
  }

  lemma ListedInPlace(list: seq<Block>, chain: seq<Block>, i: nat)
    requires forall k :: 0 <= k < |chain| ==> chain[k].height == k
    requires IsListing(list, Prefix(chain)) && i < |list|
    ensures i < |chain| && list[i] == chain[i]
  {
    NoGaps(list, chain, i);
    assert list[i] in list;
  }

  lemma EveryBlockListed(list: seq<Block>, chain: seq<Block>, i: nat)
    requires forall k :: 0 <= k < |chain| ==> chain[k].height == k
    requires IsListing(list, Prefix(chain)) && i < |chain|
    ensures i < |list|
  {
    assert chain[i].height == i;
    assert chain[i] in list;
    var k :| 0 <= k < |list| && list[k] == chain[i];
    NoGaps(list, chain, k);
  }

  /** A store holding exactly the heights 0 to n-1 has one listing, the chain itself. */
  lemma ListingOfChain(list: seq<Block>, chain: seq<Block>)
    requires forall i :: 0 <= i < |chain| ==> chain[i].height == i
    requires IsListing(list, Prefix(chain))
    ensures list == chain
  {
    forall i | 0 <= i < |list| ensures i < |chain| && list[i] == chain[i] {
      ListedInPlace(list, chain, i);
    }
    if list != [] {
      ListedInPlace(list, chain, |list| - 1);
    }
    if chain != [] {
      EveryBlockListed(list, chain, |chain| - 1);
    }
  }

  ghost predicate Settled(a: array<Block>, n: nat)
    reads a
  {
    forall p, q :: 0 <= p < q < a.Length && p < n ==> a[p].height <= a[q].height
  }

  method Swap(a: array<Block>, i: nat, j: nat)
    requires i < a.Length && j < a.Length
    modifies a
    ensures a[i] == old(a[j]) && a[j] == old(a[i])
    ensures forall k :: 0 <= k < a.Length && k != i && k != j ==> a[k] == old(a[k])
    ensures multiset(a[..]) == multiset(old(a[..]))
  {
    ghost var before := a[..];
    a[i], a[j] := a[j], a[i];
    assert a[..] == before[i := before[j]][j := before[i]];
  }

  // The inner loop of the sort: position i gets the lowest of what follows.
  method Settle(a: array<Block>, i: nat)
    requires i < a.Length && Settled(a, i)
    modifies a
    ensures Settled(a, i + 1)
    ensures multiset(a[..]) == multiset(old(a[..]))
  {
    for j := i + 1 to a.Length
      invariant Settled(a, i)
      invariant forall q :: i < q < j ==> a[i].height <= a[q].height
      invariant multiset(a[..]) == multiset(old(a[..]))
    {
      if a[j].height < a[i].height {
        Swap(a, i, j);
      }
    }
  }

  // The nested-loop exchange sort of LoadBlocks, in place.
  method SortByHeight(a: array<Block>)
    modifies a
    ensures Ascending(a[..])
    ensures multiset(a[..]) == multiset(old(a[..]))
  {
    for i := 0 to a.Length
      invariant Settled(a, i)
      invariant multiset(a[..]) == multiset(old(a[..]))
    {
      Settle(a, i);
    }
  }

  method AnyOf<K>(s: set<K>) returns (k: K)
    requires s != {}
    ensures k in s
  {
    k :| k in s;
  }

  // The bucket's values in whatever order ForEach visits them.
  method BucketValues(blocks: map<int, Block>) returns (found: seq<Block>)
    requires KeyedByHeight(blocks)
    ensures forall b :: b in found <==> b.height in blocks && blocks[b.height] == b
    ensures forall i, j :: 0 <= i < j < |found| ==> found[i].height != found[j].height
  {
    found := [];
    var rest := blocks.Keys;
    while rest != {}
      invariant rest <= blocks.Keys
      invariant forall i :: 0 <= i < |found| ==>
                  found[i].height in blocks && found[i].height !in rest && blocks[found[i].height] == found[i]
      invariant forall h :: h in blocks && h !in rest ==> blocks[h] in found
      invariant forall i, j :: 0 <= i < j < |found| ==> found[i].height != found[j].height
    {
      var h := AnyOf(rest);
      found, rest := found + [blocks[h]], rest - {h};
    }
  }

  class Store {
    var blocks: map<int, Block>
    var state: Option<Persisted>

    ghost predicate Valid()
      reads this
    {
      KeyedByHeight(blocks)
    }

    ghost function OnDisk(): Disk
      reads this
    {
      Disk(blocks, state)
    }

    constructor ()
      ensures Valid() && OnDisk() == Disk(map[], None)
    {
      blocks, state := map[], None;
    }

    method SaveBlock(b: Block, ioOk: bool) returns (r: Outcome)
      requires Valid()
      modifies this
      ensures Valid()
      ensures r == if ioOk then Accepted else Rejected(StoreFailure)
      ensures OnDisk() == if ioOk then old(OnDisk()).(blocks := old(blocks)[b.height := b]) else old(OnDisk())
    {
      if !ioOk {
        return Rejected(StoreFailure);
      }
      blocks := blocks[b.height := b];
      return Accepted;
    }

    method SaveState(s: State, ioOk: bool) returns (r: Outcome)
      requires Valid()
      modifies this
      ensures Valid()
      ensures r == if ioOk then Accepted else Rejected(StoreFailure)
      ensures OnDisk() == if ioOk then old(OnDisk()).(state := Some(Project(s.View()))) else old(OnDisk())
    {
      if !ioOk {
        return Rejected(StoreFailure);
      }
      state := Some(Persisted(s.accounts, s.allowed, s.taxSplit));
      return Accepted;
    }

    method SaveBlockAndState(b: Block, s: State, ioOk: bool) returns (r: Outcome)
      requires Valid()
      modifies this
      ensures Valid()
      ensures r == if ioOk then Accepted else Rejected(StoreFailure)
      ensures if ioOk then OnDisk() == Disk(old(blocks)[b.height := b], Some(Project(s.View()))) else unchanged(this)
    {
      if !ioOk {
        return Rejected(StoreFailure);
      }
      blocks := blocks[b.height := b];
      state := Some(Persisted(s.accounts, s.allowed, s.taxSplit));
      return Accepted;
    }

    // The bucket is visited in any order; the sort makes the order irrelevant.
    method LoadBlocks() returns (list: seq<Block>)
      requires Valid()
      ensures IsListing(list, blocks)
    {
      var found := BucketValues(blocks);
      var a := new Block[|found|](i requires 0 <= i < |found| => found[i]);
      assert a[..] == found;
      SortByHeight(a);
      list := a[..];
      SortedIsListing(list, found, blocks);
    }

    // Fills a new state from the persisted fields.
    method LoadState() returns (r: Option<State>)
      ensures r.Some? <==> state.Some?
      ensures r.Some? ==> fresh(r.value) && r.value.View() == Restore(state.value)
    {
      if state.None? {
        return None;
      }
      var s := new State([], state.value.taxes);
      s.allowed := state.value.allowed;
      s.accounts := CopyMap(state.value.accounts);
      return Some(s);
    }
  }

  lemma SortedIsListing(list: seq<Block>, found: seq<Block>, blocks: map<int, Block>)
    requires Ascending(list) && multiset(list) == multiset(found)
    requires forall b :: b in found <==> b.height in blocks && blocks[b.height] == b
    requires forall i, j :: 0 <= i < j < |found| ==> found[i].height != found[j].height
    ensures IsListing(list, blocks)
  {
    forall b ensures b in list <==> b in found {
      assert b in list <==> b in multiset(list);
      assert b in found <==> b in multiset(found);
    }
    forall i, j | 0 <= i < j < |list| ensures list[i].height < list[j].height {
      if list[i].height == list[j].height {
        assert list[i] in list && list[j] in list;
        assert list[i] == list[j];
        DistinctHeightsOnce(found, list[i]);
        TwiceInList(list, i, j);
      }
    }
  }

  lemma {:induction false} DistinctHeightsOnce(found: seq<Block>, b: Block)
    requires forall i, j :: 0 <= i < j < |found| ==> found[i].height != found[j].height
    ensures multiset(found)[b] <= 1
  {
    if found != [] {
      var init, last := found[..|found| - 1], found[|found| - 1];
      DistinctHeightsOnce(init, b);
      assert found == init + [last];
      if last == b {
        assert b !in init;
        assert b !in multiset(init);
      }
    }
  }

  lemma TwiceInList(list: seq<Block>, i: nat, j: nat)
    requires i < j < |list| && list[i] == list[j]
    ensures multiset(list)[list[i]] >= 2
  {
    assert list == list[..i] + [list[i]] + list[i + 1..j] + [list[j]] + list[j + 1..];
  }
}
