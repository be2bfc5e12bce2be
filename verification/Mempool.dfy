/** The pending pools of `internal/mempool`: what is waiting, in admission order, and what it reserves. */
module Mempool {
  import opened Domain

  ghost predicate Distinct(ids: seq<TxID>) {
    forall i, j :: 0 <= i < j < |ids| ==> ids[i] != ids[j]
  }

  // The entries of order that are still in items, in order.

  function Pending<T>(order: seq<TxID>, items: map<TxID, T>): seq<T> {
    if order == [] then [] else
      var last := order[|order| - 1];
      Pending(order[..|order| - 1], items) + if last in items then [items[last]] else []
  }

  function KeepListed<T>(order: seq<TxID>, items: map<TxID, T>): seq<TxID> {
    if order == [] then [] else
      var last := order[|order| - 1];
      KeepListed(order[..|order| - 1], items) + if last in items then [last] else []
  }

  ghost predicate Lists<T>(order: seq<TxID>, items: map<TxID, T>) {
    Distinct(order) && forall id :: id in order <==> id in items
  }

  lemma {:induction false} KeptHas<T>(order: seq<TxID>, items: map<TxID, T>, id: TxID)
    ensures id in KeepListed(order, items) <==> id in order && id in items
  {
    if order != [] {
      var init, last := order[..|order| - 1], order[|order| - 1];
      KeptHas(init, items, id);
      assert id in order <==> id in init || id == last;
    }
  }

  lemma {:induction false} KeepListedDistinct<T>(order: seq<TxID>, items: map<TxID, T>)
    requires Distinct(order)
    ensures Distinct(KeepListed(order, items))
  {
    if order != [] {
      var init, last := order[..|order| - 1], order[|order| - 1];
      KeepListedDistinct(init, items);
      KeptHas(init, items, last);
    }
  }

  lemma {:induction false} KeepListedPending<T>(order: seq<TxID>, items: map<TxID, T>)
    ensures Pending(KeepListed(order, items), items) == Pending(order, items)
  {
    if order != [] {
      KeepListedPending(order[..|order| - 1], items);
      KeptSnoc(KeepListed(order[..|order| - 1], items), order[|order| - 1], items);
    }
  }

  /** Compacting the order after deletions leaves it listing exactly the items left, in the same order. */
  lemma KeepListedLists<T>(order: seq<TxID>, items: map<TxID, T>)
    requires Distinct(order) && forall id :: id in items ==> id in order
    ensures Lists(KeepListed(order, items), items)
    ensures Pending(KeepListed(order, items), items) == Pending(order, items)
  {
    KeepListedDistinct(order, items);
    KeepListedPending(order, items);
    forall id ensures id in KeepListed(order, items) <==> id in items {
      KeptHas(order, items, id);
    }
  }

  lemma KeptSnoc<T>(kept: seq<TxID>, last: TxID, items: map<TxID, T>)
    ensures Pending(kept + [last], items) == Pending(kept, items) + if last in items then [items[last]] else []
    ensures kept + [] == kept
  {
    assert (kept + [last])[..|kept|] == kept;
  }

  lemma {:induction false} PendingAt<T>(order: seq<TxID>, items: map<TxID, T>)
    requires forall id :: id in order ==> id in items
    ensures |Pending(order, items)| == |order|
    ensures forall i :: 0 <= i < |order| ==> Pending(order, items)[i] == items[order[i]]
  {
    if order != [] {
      PendingAt(order[..|order| - 1], items);
    }
  }

  lemma {:induction false} PendingSameItems<T>(order: seq<TxID>, a: map<TxID, T>, b: map<TxID, T>)
    requires forall id :: id in order ==> (id in a <==> id in b) && (id in a ==> a[id] == b[id])
    ensures Pending(order, a) == Pending(order, b)
    ensures KeepListed(order, a) == KeepListed(order, b)
  {
    if order != [] {
      assert order[|order| - 1] in order;
      PendingSameItems(order[..|order| - 1], a, b);
    }
  }

  lemma PendingAppend<T>(order: seq<TxID>, items: map<TxID, T>, id: TxID, tx: T)
    requires Lists(order, items) && id !in items
    ensures Lists(order + [id], items[id := tx])
    ensures Pending(order + [id], items[id := tx]) == Pending(order, items) + [tx]
  {
    PendingSameItems(order, items, items[id := tx]);
    assert (order + [id])[..|order|] == order;
  }

  function Without<T>(pending: seq<T>, ids: set<TxID>, idOf: T -> TxID): seq<T> {
    if pending == [] then [] else
      var last := pending[|pending| - 1];
      Without(pending[..|pending| - 1], ids, idOf) + if idOf(last) in ids then [] else [last]
  }

  lemma {:induction false} PendingWithout<T>(order: seq<TxID>, items: map<TxID, T>, ids: set<TxID>, idOf: T -> TxID)
    requires forall id :: id in order ==> id in items && idOf(items[id]) == id
    ensures Pending(order, items - ids) == Without(Pending(order, items), ids, idOf)
  {
    if order != [] {
      var init, last := order[..|order| - 1], order[|order| - 1];
      PendingWithout(init, items, ids, idOf);
      assert last in order;
      assert Pending(order, items)[..|Pending(init, items)|] == Pending(init, items);
    }
  }

  lemma {:induction false} WithoutNone<T>(pending: seq<T>, ids: set<TxID>, idOf: T -> TxID)
    requires forall i :: 0 <= i < |pending| ==> idOf(pending[i]) !in ids
    ensures Without(pending, ids, idOf) == pending
  {
    if pending != [] {
      WithoutNone(pending[..|pending| - 1], ids, idOf);
    }
  }

  lemma {:induction false} WithoutHas<T>(pending: seq<T>, ids: set<TxID>, idOf: T -> TxID, tx: T)
    ensures tx in Without(pending, ids, idOf) <==> tx in pending && idOf(tx) !in ids
  {
    if pending != [] {
      var init, last := pending[..|pending| - 1], pending[|pending| - 1];
      WithoutHas(init, ids, idOf, tx);
      assert tx in pending <==> tx in init || tx == last;
    }
  }

  lemma {:induction false} WithoutTwice<T>(pending: seq<T>, a: set<TxID>, b: set<TxID>, idOf: T -> TxID)
    ensures Without(Without(pending, a, idOf), b, idOf) == Without(pending, a + b, idOf)
  {
    if pending != [] {
      var init, last := pending[..|pending| - 1], pending[|pending| - 1];
      WithoutTwice(init, a, b, idOf);
      var kept := Without(init, a, idOf);
      assert (kept + [last])[..|kept|] == kept;
      assert kept + [] == kept;
    }
  }

  function IdsOf<T>(txs: seq<T>, idOf: T -> TxID): (ids: seq<TxID>)
    ensures |ids| == |txs| && forall i :: 0 <= i < |txs| ==> ids[i] == idOf(txs[i])
  {
    seq(|txs|, i requires 0 <= i < |txs| => idOf(txs[i]))
  }

  /** Taking out the ids of the first n entries, none of which occurs twice, leaves exactly the rest. */
  lemma {:induction false} WithoutFirst<T>(queue: seq<T>, n: nat, idOf: T -> TxID)
    requires Distinct(IdsOf(queue, idOf)) && n <= |queue|
    ensures Without(queue, IdSet(IdsOf(queue[..n], idOf)), idOf) == queue[n..]
    decreases |queue|
  {
    var ids := IdsOf(queue, idOf);
    if n < |queue| {
      var init, last := queue[..|queue| - 1], queue[|queue| - 1];
      assert IdsOf(init, idOf) == ids[..|queue| - 1];
      WithoutFirst(init, n, idOf);
      assert init[..n] == queue[..n];
      assert idOf(last) == ids[|queue| - 1];
      assert idOf(last) !in IdSet(IdsOf(queue[..n], idOf)) by {
        assert forall i :: 0 <= i < n ==> IdsOf(queue[..n], idOf)[i] == ids[i];
      }
    } else if n > 0 {
      assert queue[..n] == queue;
      WithoutAll(queue, IdSet(ids), idOf);
    }
  }

  lemma {:induction false} WithoutAll<T>(queue: seq<T>, ids: set<TxID>, idOf: T -> TxID)
    requires forall i :: 0 <= i < |queue| ==> IdsOf(queue, idOf)[i] in ids
    ensures Without(queue, ids, idOf) == []
  {
    if queue != [] {
      var init := queue[..|queue| - 1];
      assert forall i :: 0 <= i < |init| ==> IdsOf(init, idOf)[i] == IdsOf(queue, idOf)[i];
      assert idOf(queue[|init|]) == IdsOf(queue, idOf)[|init|];
      WithoutAll(init, ids, idOf);
    }
  }

  /** No id waits twice. */
  lemma PendingIds<T>(order: seq<TxID>, items: map<TxID, T>, idOf: T -> TxID)
    requires Lists(order, items) && forall id :: id in items ==> idOf(items[id]) == id
    ensures IdsOf(Pending(order, items), idOf) == order && Distinct(IdsOf(Pending(order, items), idOf))
  {
    PendingAt(order, items);
    forall i | 0 <= i < |order| ensures IdsOf(Pending(order, items), idOf)[i] == order[i] {
      assert order[i] in order;
    }
  }

  // What a pool's TryAdd makes of the waiting entries.
  function AdmitTo<T>(pending: seq<T>, tx: T, idOf: T -> TxID, checked: Outcome): seq<T> {
    if idOf(tx) in IdsOf(pending, idOf) || checked.Rejected? then pending else pending + [tx]
  }

  lemma PendingHas<T>(order: seq<TxID>, items: map<TxID, T>, idOf: T -> TxID, id: TxID)
    requires Lists(order, items) && forall id :: id in items ==> idOf(items[id]) == id
    ensures id in items <==> id in IdsOf(Pending(order, items), idOf)
  {
    var pending := Pending(order, items);
    PendingAt(order, items);
    if id in items {
      assert id in order;
      var i :| 0 <= i < |order| && order[i] == id;
      assert IdsOf(pending, idOf)[i] == id;
    }
    if id in IdsOf(pending, idOf) {
      var i :| 0 <= i < |pending| && IdsOf(pending, idOf)[i] == id;
      assert order[i] in order;
    }
  }

  // The rebuild of the order slice after deletions.
  method Compact<T>(order: seq<TxID>, items: map<TxID, T>) returns (newOrder: seq<TxID>)
    ensures newOrder == KeepListed(order, items)
  {
    newOrder := [];
    for i := 0 to |order|
      invariant newOrder == KeepListed(order[..i], items)
    {
      assert order[..i + 1][..i] == order[..i];
      if order[i] in items {
        newOrder := newOrder + [order[i]];
      }
    }
    assert order[..|order|] == order;
  }

  function IdSet(ids: seq<TxID>): (s: set<TxID>)
    ensures forall id :: id in s <==> id in ids
  {
    set id | id in ids
  }

  lemma IdSetSnoc(ids: seq<TxID>, i: nat)
    requires i < |ids|
    ensures IdSet(ids[..i + 1]) == IdSet(ids[..i]) + {ids[i]}
  {
    assert ids[..i + 1] == ids[..i] + [ids[i]];
  }

  // ---------------------------------------------------------------------------------------------
  // Account creates and closes: two pools of the same shape
  // ---------------------------------------------------------------------------------------------

  class OrderedPool<T> {
    var items: map<TxID, T>
    var order: seq<TxID>
    const idOf: T -> TxID

    ghost predicate Valid()
      reads this
    {
      Lists(order, items) && forall id :: id in items ==> idOf(items[id]) == id
    }

    ghost function Waiting(): seq<T>
      reads this
    {
      Pending(order, items)
    }

    constructor (idOf: T -> TxID)
      ensures Valid() && Waiting() == [] && this.idOf == idOf
    {
      this.idOf := idOf;
      items, order := map[], [];
    }

    method TryAdd(tx: T, check: Option<Outcome>) returns (r: Outcome)
      requires Valid()
      modifies this
      ensures Valid()
      ensures r == if idOf(tx) in old(items) then Rejected(AlreadyPending(idOf(tx)))
                   else if check.Some? then check.value else Accepted
      ensures r.Accepted? ==> items == old(items)[idOf(tx) := tx] && order == old(order) + [idOf(tx)]
      ensures r.Accepted? ==> Waiting() == old(Waiting()) + [tx]
      ensures r.Rejected? ==> items == old(items) && order == old(order)
    {
      hide Pending;
      var id := idOf(tx);
      if id in items {
        return Rejected(AlreadyPending(id));
      }
      if check.Some? && check.value.Rejected? {
        return check.value;
      }
      PendingAppend(order, items, id, tx);
      items := items[id := tx];
      order := order + [id];
      return Accepted;
    }

    // Unknown and repeated ids are allowed.
    method Remove(ids: seq<TxID>)
      requires Valid()
      modifies this
      ensures Valid()
      ensures items == old(items) - IdSet(ids)
      ensures order == KeepListed(old(order), items)
      ensures Waiting() == Without(old(Waiting()), IdSet(ids), idOf)
    {
      for i := 0 to |ids|
        invariant order == old(order)
        invariant items == old(items) - IdSet(ids[..i])
      {
        IdSetSnoc(ids, i);
        items := items - {ids[i]};
      }
      assert ids[..|ids|] == ids;
      PendingWithout(order, old(items), IdSet(ids), idOf);
      KeepListedLists(order, items);
      order := Compact(order, items);
    }

    method Peek(max: int) returns (out: seq<T>)
      requires Valid()
      ensures out == if max <= 0 || |Waiting()| < max then Waiting() else Waiting()[..max]
    {
      PendingAt(order, items);
      var n := if max <= 0 || |order| < max then |order| else max;
      out := [];
      for i := 0 to n
        invariant out == Waiting()[..i]
      {
        out := out + [items[order[i]]];
      }
    }
  }

  // ---------------------------------------------------------------------------------------------
  // Payments, with the gross reserved per payer
  // ---------------------------------------------------------------------------------------------

  function PendingGross(pending: seq<Payment>, payer: AccountID): int {
    if pending == [] then 0 else
      var last := pending[|pending| - 1];
      PendingGross(pending[..|pending| - 1], payer) + if last.payer.id == payer then Gross(last) else 0
  }

  lemma {:induction false} PendingGrossConcat(a: seq<Payment>, b: seq<Payment>, payer: AccountID)
    ensures PendingGross(a + b, payer) == PendingGross(a, payer) + PendingGross(b, payer)
  {
    if b == [] {
      assert a + b == a;
    } else {
      PendingGrossConcat(a, b[..|b| - 1], payer);
      assert (a + b)[..|a + b| - 1] == a + b[..|b| - 1];
    }
  }

  lemma PendingGrossOne(tx: Payment, payer: AccountID)
    ensures PendingGross([tx], payer) == if tx.payer.id == payer then Gross(tx) else 0
  {
    assert [tx][..0] == [];
  }

  ghost predicate GrossNonNegative(pending: seq<Payment>) {
    forall i :: 0 <= i < |pending| ==> 0 <= Gross(pending[i])
  }

  lemma {:induction false} PendingGrossNonNegative(pending: seq<Payment>, payer: AccountID)
    requires GrossNonNegative(pending)
    ensures 0 <= PendingGross(pending, payer)
  {
    if pending != [] {
      PendingGrossNonNegative(pending[..|pending| - 1], payer);
    }
  }

  /** Taking one listed item away lowers its payer's pending gross by its own gross, and no other payer's. */
  lemma {:induction false} RemovalReleases(order: seq<TxID>, items: map<TxID, Payment>, id: TxID, payer: AccountID)
    requires Distinct(order) && id in items
    ensures PendingGross(Pending(order, items - {id}), payer)
            == PendingGross(Pending(order, items), payer)
               - if id in order && items[id].payer.id == payer then Gross(items[id]) else 0
  {
    if order != [] {
      var init, last := order[..|order| - 1], order[|order| - 1];
      assert order == init + [last] && last !in init;
      RemovalReleases(init, items, id, payer);
      PendingGrossSnoc(order, items, payer);
      PendingGrossSnoc(order, items - {id}, payer);
    }
  }

  lemma PendingGrossSnoc(order: seq<TxID>, items: map<TxID, Payment>, payer: AccountID)
    requires order != []
    ensures var last := order[|order| - 1];
            PendingGross(Pending(order, items), payer)
            == PendingGross(Pending(order[..|order| - 1], items), payer)
               + if last in items && items[last].payer.id == payer then Gross(items[last]) else 0
  {
    var init, last := order[..|order| - 1], order[|order| - 1];
    if last in items {
      PendingGrossConcat(Pending(init, items), [items[last]], payer);
      PendingGrossOne(items[last], payer);
    } else {
      assert Pending(order, items) == Pending(init, items);
    }
  }

  lemma {:induction false} PendingComesFromItems(order: seq<TxID>, items: map<TxID, Payment>)
    requires forall id :: id in items ==> 0 <= Gross(items[id])
    ensures GrossNonNegative(Pending(order, items))
  {
    if order != [] {
      PendingComesFromItems(order[..|order| - 1], items);
    }
  }

  function PaymentId(tx: Payment): TxID { tx.id }

  function CreateId(tx: AccountCreate): TxID { tx.id }

  function CloseId(tx: AccountClose): TxID { tx.id }

  type Counters = map<AccountID, int>

  function Counter(reserved: Counters, payer: AccountID): int {
    if payer in reserved then reserved[payer] else 0
  }

  /** The counters agree with the pool contents: each payer's is the summed gross of their pending payments. */
  ghost predicate Accounted(order: seq<TxID>, items: map<TxID, Payment>, reserved: Counters) {
    && (forall id :: id in items ==> 0 <= Gross(items[id]))
    && (forall payer :: Counter(reserved, payer) == PendingGross(Pending(order, items), payer))
  }

  function Reserve(reserved: Counters, tx: Payment): Counters {
    reserved[tx.payer.id := Counter(reserved, tx.payer.id) + Gross(tx)]
  }

  // A counter that drops to zero or below is deleted.
  function Released(reserved: Counters, tx: Payment): Counters {
    var left := Counter(reserved, tx.payer.id) - Gross(tx);
    if left <= 0 then reserved - {tx.payer.id} else reserved[tx.payer.id := left]
  }

  lemma AdmissionReserves(order: seq<TxID>, items: map<TxID, Payment>, reserved: Counters, tx: Payment)
    requires Lists(order, items) && tx.id !in items && Accounted(order, items, reserved) && 0 <= Gross(tx)
    ensures Accounted(order + [tx.id], items[tx.id := tx], Reserve(reserved, tx))
  {
    PendingAppend(order, items, tx.id, tx);
    var pending := Pending(order, items);
    forall payer ensures Counter(Reserve(reserved, tx), payer) == PendingGross(pending + [tx], payer) {
      PendingGrossConcat(pending, [tx], payer);
      PendingGrossOne(tx, payer);
    }
  }

  lemma ReleaseAccounts(order: seq<TxID>, items: map<TxID, Payment>, reserved: Counters, id: TxID)
    requires Distinct(order) && id in order && id in items && Accounted(order, items, reserved)
    ensures Accounted(order, items - {id}, Released(reserved, items[id]))
  {
    forall payer ensures Counter(Released(reserved, items[id]), payer)
                         == PendingGross(Pending(order, items - {id}), payer)
    {
      RemovalReleases(order, items, id, payer);
      PendingComesFromItems(order, items - {id});
      PendingGrossNonNegative(Pending(order, items - {id}), payer);
    }
  }

  class Pool {
    var items: map<TxID, Payment>
    var order: seq<TxID>
    var reserved: map<AccountID, int>

    ghost predicate Valid()
      reads this
    {
      Lists(order, items) && forall id :: id in items ==> items[id].id == id
    }

    ghost function Waiting(): seq<Payment>
      reads this
    {
      Pending(order, items)
    }

    function ReservedFor(payer: AccountID): int
      reads this
    {
      Counter(reserved, payer)
    }

    ghost predicate Accounts()
      reads this
    {
      Accounted(order, items, reserved)
    }

    constructor ()
      ensures Valid() && Accounts() && Waiting() == []
    {
      items, order, reserved := map[], [], map[];
    }

    method TryAdd(tx: Payment, check: Option<int -> Outcome>) returns (r: Outcome)
      requires Valid()
      modifies this
      ensures Valid()
      ensures r == if tx.id in old(items) then Rejected(AlreadyPending(tx.id))
                   else if check.Some? then check.value(old(ReservedFor(tx.payer.id))) else Accepted
      ensures r.Accepted? ==> items == old(items)[tx.id := tx] && order == old(order) + [tx.id]
                              && reserved == Reserve(old(reserved), tx)
      ensures r.Accepted? ==> Waiting() == old(Waiting()) + [tx]
      ensures r.Rejected? ==> items == old(items) && order == old(order) && reserved == old(reserved)
      ensures old(Accounts()) && (r.Accepted? ==> 0 <= Gross(tx)) ==> Accounts()
    {
      if tx.id in items {
        return Rejected(AlreadyPending(tx.id));
      }
      if check.Some? {
        r := check.value(ReservedFor(tx.payer.id));
        if r.Rejected? {
          return;
        }
      }
      Insert(tx);
      return Accepted;
    }

    method Insert(tx: Payment)
      requires Valid() && tx.id !in items
      modifies this
      ensures Valid()
      ensures items == old(items)[tx.id := tx] && order == old(order) + [tx.id]
      ensures reserved == Reserve(old(reserved), tx)
      ensures Waiting() == old(Waiting()) + [tx]
      ensures old(Accounts()) && 0 <= Gross(tx) ==> Accounts()
    {
      hide Accounted, PendingGross, Pending;
      ghost var accounted := Accounts() && 0 <= Gross(tx);
      if accounted {
        AdmissionReserves(order, items, reserved, tx);
      }
      PendingAppend(order, items, tx.id, tx);
      var gross := GrossAmount(tx);
      items, order, reserved := items[tx.id := tx], order + [tx.id],
        reserved[tx.payer.id := ReservedFor(tx.payer.id) + gross];
      assert reserved == Reserve(old(reserved), tx);
      assert accounted ==> Accounts();
    }

    method Release(tx: Payment)
      modifies this`reserved
      ensures reserved == Released(old(reserved), tx)
    {
      var payer := tx.payer.id;
      var gross := GrossAmount(tx);
      reserved := reserved[payer := ReservedFor(payer) - gross];
      if reserved[payer] <= 0 {
        reserved := reserved - {payer};
      }
    }

    // The deletions of removeLocked; unknown and repeated ids are skipped.
    method Delete(ids: seq<TxID>)
      requires Valid()
      modifies this`items, this`reserved
      ensures items == old(items) - IdSet(ids)
      ensures old(Accounts()) ==> Accounts()
    {
      for i := 0 to |ids|
        invariant items == old(items) - IdSet(ids[..i])
        invariant old(Accounts()) ==> Accounts()
      {
        IdSetSnoc(ids, i);
        if ids[i] !in items {
          continue;
        }
        if Accounts() {
          ReleaseAccounts(order, items, reserved, ids[i]);
        }
        Release(items[ids[i]]);
        items := items - {ids[i]};
      }
      assert ids[..|ids|] == ids;
    }

    method Remove(ids: seq<TxID>)
      requires Valid()
      modifies this
      ensures Valid()
      ensures items == old(items) - IdSet(ids)
      ensures order == KeepListed(old(order), items)
      ensures Waiting() == Without(old(Waiting()), IdSet(ids), PaymentId)
      ensures old(Accounts()) ==> Accounts()
    {
      PendingWithout(order, items, IdSet(ids), PaymentId);
      Delete(ids);
      KeepListedLists(order, items);
      order := Compact(order, items);
    }

    method Peek(max: int) returns (out: seq<Payment>)
      requires Valid()
      ensures out == if max <= 0 || |Waiting()| < max then Waiting() else Waiting()[..max]
    {
      PendingAt(order, items);
      var n := if max <= 0 || |order| < max then |order| else max;
      out := [];
      for i := 0 to n
        invariant out == Waiting()[..i]
      {
        out := out + [items[order[i]]];
      }
    }
  }
}
