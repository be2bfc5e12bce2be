/** The locks of one node: what each task acquires and in which order, and why no interleaving gets stuck. */
module Locks {

  datatype Lock = BridgeLock | PaymentLock | CreateLock | CloseLock | ChainLock | PeersLock

  function Rank(l: Lock): nat {
    match l
    case BridgeLock => 0
    case PaymentLock => 1
    case CreateLock => 2
    case CloseLock => 3
    case ChainLock => 4
    case PeersLock => 5
  }

  // ---------------------------------------------------------------------------------------------
  // What the tasks lock
  // ---------------------------------------------------------------------------------------------

  // With is `mu.Lock(); defer mu.Unlock()` around a body; a shared With is the RLock of the chain.
  datatype Code = Skip | Then(first: Code, second: Code) | With(lock: Lock, shared: bool, body: Code)

  const READ_CHAIN := With(ChainLock, true, Skip)

  // The nested Commit calls around AppendBlock, the same for success and failure.
  const COMMIT := With(PaymentLock, false,
                       With(CreateLock, false, With(CloseLock, false, With(ChainLock, false, Skip))))

  // One block of a batch: skipped, appended, or the one where the batch stops, ahead of the next height or refused.
  datatype Received = Stale | Next | Gap | Failed

  // The height is read once for a stale block and twice for others; the error of a gap reads it again.
  function ReceiveCode(path: Received): Code {
    match path
    case Stale => READ_CHAIN
    case Next => Then(READ_CHAIN, Then(READ_CHAIN, COMMIT))
    case Gap => Then(READ_CHAIN, Then(READ_CHAIN, READ_CHAIN))
    case Failed => Then(READ_CHAIN, Then(READ_CHAIN, COMMIT))
  }

  // At the end of the batch the height is read for the log, if anything was applied; an error returns at once.
  function ReceiveAllCode(paths: seq<Received>, applied: bool): Code {
    if paths == [] then (if applied then READ_CHAIN else Skip)
    else if paths[0].Gap? || paths[0].Failed? then ReceiveCode(paths[0])
    else Then(ReceiveCode(paths[0]), ReceiveAllCode(paths[1..], applied || paths[0].Next?))
  }

  datatype Produced = NoProducer | NotMySlot | NothingPicked | Unsigned | Refused | Committed

  // Peek, and Remove as well when something was dropped.
  function PickCode(pool: Lock, drops: bool): Code {
    if drops then Then(With(pool, false, Skip), With(pool, false, Skip)) else With(pool, false, Skip)
  }

  function ProduceCode(path: Produced, dropCreates: bool, dropPayments: bool, dropCloses: bool): Code {
    if path.NoProducer? then Skip
    else if path.NotMySlot? then READ_CHAIN
    else
      var pick := Then(READ_CHAIN, Then(READ_CHAIN, Then(PickCode(CreateLock, dropCreates),
                       Then(PickCode(PaymentLock, dropPayments), PickCode(CloseLock, dropCloses)))));
      match path
      case NothingPicked => pick
      case Unsigned => Then(pick, READ_CHAIN)
      case Refused => Then(pick, Then(READ_CHAIN, COMMIT))
      case _ => Then(pick, Then(READ_CHAIN, Then(COMMIT, With(PeersLock, false, Skip))))
  }

  datatype Task =
    | ApplyBlocks(paths: seq<Received>)
    | ProduceBlock(path: Produced, dropCreates: bool, dropPayments: bool, dropCloses: bool)
    | Admit(pool: Lock, duplicate: bool)
    | ReadState
    | Broadcast

  predicate IsTask(t: Task) { t.Admit? ==> t.pool == PaymentLock || t.pool == CreateLock || t.pool == CloseLock }

  function CodeOf(t: Task): Code {
    match t
    case ApplyBlocks(paths) => With(BridgeLock, false, ReceiveAllCode(paths, false))
    case ProduceBlock(path, creates, payments, closes) => ProduceCode(path, creates, payments, closes)
    case Admit(pool, duplicate) => With(pool, false, if duplicate then Skip else READ_CHAIN)
    case ReadState => READ_CHAIN
    case Broadcast => With(PeersLock, false, Skip)
  }

  function CodeOfAll(tasks: seq<Task>): Code {
    if tasks == [] then Skip else Then(CodeOf(tasks[0]), CodeOfAll(tasks[1..]))
  }

  /** Locks are taken in strictly increasing rank, above whatever is held already. */
  predicate Ascends(code: Code, above: int) {
    match code
    case Skip => true
    case Then(first, second) => Ascends(first, above) && Ascends(second, above)
    case With(l, _, body) => above < Rank(l) && Ascends(body, Rank(l))
  }

  lemma {:induction false} ReceiveAscends(paths: seq<Received>, applied: bool)
    ensures Ascends(ReceiveAllCode(paths, applied), Rank(BridgeLock))
  {
    if paths != [] {
      assert Ascends(COMMIT, Rank(BridgeLock));
      ReceiveAscends(paths[1..], applied || paths[0].Next?);
    }
  }

  /** Every task of the node acquires its locks in strictly increasing rank. */
  lemma TaskAscends(t: Task)
    requires IsTask(t)
    ensures Ascends(CodeOf(t), -1)
  {
    match t
    case ApplyBlocks(paths) => ReceiveAscends(paths, false);
    case ProduceBlock(_, _, _, _) => assert Ascends(COMMIT, -1);
    case _ =>
  }

  lemma {:induction false} TasksAscend(tasks: seq<Task>)
    requires forall i :: 0 <= i < |tasks| ==> IsTask(tasks[i])
    ensures Ascends(CodeOfAll(tasks), -1)
  {
    if tasks != [] {
      TaskAscends(tasks[0]);
      TasksAscend(tasks[1..]);
    }
  }

  // ---------------------------------------------------------------------------------------------
  // Running
  // ---------------------------------------------------------------------------------------------

  datatype Action = Acquire(lock: Lock, shared: bool) | Release

  function Actions(code: Code): seq<Action> {
    match code
    case Skip => []
    case Then(first, second) => Actions(first) + Actions(second)
    case With(l, shared, body) => [Acquire(l, shared)] + Actions(body) + [Release]
  }

  datatype Hold = Hold(lock: Lock, shared: bool)

  // Release gives back the lock acquired last.
  function Held(holds: seq<Hold>, done: seq<Action>): seq<Hold> {
    if done == [] then holds else
      var before, last := Held(holds, done[..|done| - 1]), done[|done| - 1];
      match last
      case Acquire(l, shared) => before + [Hold(l, shared)]
      case Release => if before == [] then [] else before[..|before| - 1]
  }

  /** A thread has a program, how far it got, and whether it has announced the exclusive lock it is about to take:
      a waiting writer keeps new readers out. */
  datatype Thread = Thread(program: seq<Action>, pc: nat, announced: bool)

  function Holds(t: Thread): seq<Hold>
    requires t.pc <= |t.program|
  {
    Held([], t.program[..t.pc])
  }

  ghost predicate Holding(t: Thread, l: Lock, shared: bool)
    requires t.pc <= |t.program|
  {
    Hold(l, shared) in Holds(t)
  }

  ghost predicate Well(s: seq<Thread>) {
    forall i :: 0 <= i < |s| ==> s[i].pc <= |s[i].program|
  }

  ghost predicate Free(s: seq<Thread>, l: Lock, except: nat, forReader: bool)
    requires Well(s)
  {
    forall j :: 0 <= j < |s| && j != except ==>
      !Holding(s[j], l, false) && (forReader || !Holding(s[j], l, true))
  }

  ghost predicate WriterWaits(s: seq<Thread>, l: Lock, j: nat) {
    j < |s| && s[j].announced && s[j].pc < |s[j].program| && s[j].program[s[j].pc] == Acquire(l, false)
  }

  ghost predicate CanStep(s: seq<Thread>, i: nat)
    requires Well(s)
  {
    && i < |s| && s[i].pc < |s[i].program|
    && match s[i].program[s[i].pc]
       case Release => true
       case Acquire(l, shared) =>
         if shared then Free(s, l, i, true) && forall j: nat :: j != i ==> !WriterWaits(s, l, j)
         else !s[i].announced || Free(s, l, i, false)
  }

  function Stepped(t: Thread): Thread
    requires t.pc < |t.program|
  {
    var next := t.program[t.pc];
    if next.Acquire? && !next.shared && !t.announced then t.(announced := true)
    else t.(pc := t.pc + 1, announced := false)
  }

  ghost predicate Step(s: seq<Thread>, t: seq<Thread>, i: nat)
    requires Well(s)
  {
    CanStep(s, i) && t == s[i := Stepped(s[i])]
  }

  ghost predicate Moves(s: seq<Thread>, t: seq<Thread>) {
    Well(s) && exists i: nat :: Step(s, t, i)
  }

  ghost predicate Starts(s: seq<Thread>, work: seq<seq<Task>>) {
    && |s| == |work|
    && (forall i, k :: 0 <= i < |work| && 0 <= k < |work[i]| ==> IsTask(work[i][k]))
    && forall i :: 0 <= i < |s| ==> s[i] == Thread(Actions(CodeOfAll(work[i])), 0, false)
  }

  ghost predicate IsRun(run: seq<seq<Thread>>, work: seq<seq<Task>>) {
    && run != [] && Starts(run[0], work)
    && forall k :: 0 <= k < |run| - 1 ==> Moves(run[k], run[k + 1])
  }

  // ---------------------------------------------------------------------------------------------
  // Increasing rank, seen from the flat program
  // ---------------------------------------------------------------------------------------------

  ghost predicate Below(holds: seq<Hold>, bound: int) {
    forall k :: 0 <= k < |holds| ==> Rank(holds[k].lock) <= bound
  }

  /** At every point of the program the next lock ranks above everything held, and at the end nothing is held. */
  ghost predicate Disciplined(program: seq<Action>) {
    && Held([], program) == []
    && forall k :: 0 <= k < |program| && program[k].Acquire? ==>
         Below(Held([], program[..k]), Rank(program[k].lock) - 1)
  }

  lemma {:induction false} HeldConcat(holds: seq<Hold>, a: seq<Action>, b: seq<Action>)
    ensures Held(holds, a + b) == Held(Held(holds, a), b)
  {
    if b == [] {
      assert a + b == a;
    } else {
      HeldConcat(holds, a, b[..|b| - 1]);
      assert (a + b)[..|a + b| - 1] == a + b[..|b| - 1];
    }
  }

  lemma HeldOne(holds: seq<Hold>, a: Action)
    ensures Held(holds, [a]) == match a
                                case Acquire(l, shared) => holds + [Hold(l, shared)]
                                case Release => if holds == [] then [] else holds[..|holds| - 1]
  {
    assert [a][..0] == [];
    assert Held(holds, [a][..0]) == holds;
  }

  lemma {:induction false} CodeBalances(code: Code, holds: seq<Hold>)
    ensures Held(holds, Actions(code)) == holds
  {
    match code
    case Skip =>
    case Then(first, second) =>
      HeldConcat(holds, Actions(first), Actions(second));
      CodeBalances(first, holds);
      CodeBalances(second, holds);
    case With(l, shared, body) =>
      HeldConcat(holds, [Acquire(l, shared)] + Actions(body), [Release]);
      HeldConcat(holds, [Acquire(l, shared)], Actions(body));
      HeldOne(holds, Acquire(l, shared));
      CodeBalances(body, holds + [Hold(l, shared)]);
      HeldOne(holds + [Hold(l, shared)], Release);
  }

  lemma ThenDisciplined(first: Code, second: Code, holds: seq<Hold>, k: nat)
    requires |Actions(first)| <= k <= |Actions(Then(first, second))|
    ensures Held(holds, Actions(Then(first, second))[..k]) == Held(holds, Actions(second)[..k - |Actions(first)|])
  {
    hide Held;
    var n := |Actions(first)|;
    assert Actions(Then(first, second))[..k] == Actions(first) + Actions(second)[..k - n];
    HeldConcat(holds, Actions(first), Actions(second)[..k - n]);
    CodeBalances(first, holds);
  }

  lemma WithDisciplined(l: Lock, shared: bool, body: Code, holds: seq<Hold>, k: nat)
    requires 0 < k <= 1 + |Actions(body)|
    ensures Held(holds, Actions(With(l, shared, body))[..k]) == Held(holds + [Hold(l, shared)], Actions(body)[..k - 1])
  {
    hide Held;
    assert Actions(With(l, shared, body))[..k] == [Acquire(l, shared)] + Actions(body)[..k - 1];
    HeldConcat(holds, [Acquire(l, shared)], Actions(body)[..k - 1]);
    HeldOne(holds, Acquire(l, shared));
  }

  lemma {:induction false} CodeDisciplined(code: Code, holds: seq<Hold>, above: int, k: nat)
    requires Ascends(code, above) && Below(holds, above)
    requires k < |Actions(code)| && Actions(code)[k].Acquire?
    ensures Below(Held(holds, Actions(code)[..k]), Rank(Actions(code)[k].lock) - 1)
  {
    match code
    case Skip =>
    case Then(first, second) =>
      if k < |Actions(first)| {
        assert Actions(code)[..k] == Actions(first)[..k];
        CodeDisciplined(first, holds, above, k);
      } else {
        ThenDisciplined(first, second, holds, k);
        CodeDisciplined(second, holds, above, k - |Actions(first)|);
      }
    case With(l, shared, body) =>
      if k == 0 {
        assert Actions(code)[..k] == [];
      } else {
        assert k - 1 < |Actions(body)|;
        WithDisciplined(l, shared, body, holds, k);
        CodeDisciplined(body, holds + [Hold(l, shared)], Rank(l), k - 1);
      }
  }

  lemma ProgramDisciplined(tasks: seq<Task>)
    requires forall i :: 0 <= i < |tasks| ==> IsTask(tasks[i])
    ensures Disciplined(Actions(CodeOfAll(tasks)))
  {
    var code := CodeOfAll(tasks);
    TasksAscend(tasks);
    CodeBalances(code, []);
    forall k | 0 <= k < |Actions(code)| && Actions(code)[k].Acquire?
      ensures Below(Held([], Actions(code)[..k]), Rank(Actions(code)[k].lock) - 1)
    {
      CodeDisciplined(code, [], -1, k);
    }
  }

  // ---------------------------------------------------------------------------------------------
  // Progress
  // ---------------------------------------------------------------------------------------------

  ghost predicate Inv(s: seq<Thread>) {
    && Well(s)
    && forall i :: 0 <= i < |s| ==> Disciplined(s[i].program)
  }

  ghost predicate Unfinished(s: seq<Thread>, i: nat) {
    i < |s| && s[i].pc < |s[i].program|
  }

  // The rank a thread waits for, or none.
  function Wanted(t: Thread): int {
    if t.pc < |t.program| && t.program[t.pc].Acquire? then Rank(t.program[t.pc].lock) else -1
  }

  lemma {:induction false} HighestWanted(s: seq<Thread>) returns (m: nat)
    requires s != []
    ensures m < |s| && forall j :: 0 <= j < |s| ==> Wanted(s[j]) <= Wanted(s[m])
  {
    if |s| == 1 {
      m := 0;
    } else {
      var init := s[..|s| - 1];
      m := HighestWanted(init);
      assert forall j :: 0 <= j < |init| ==> Wanted(s[j]) == Wanted(init[j]);
      if Wanted(s[m]) < Wanted(s[|s| - 1]) {
        m := |s| - 1;
      }
    }
  }

  /** Whoever holds a lock and waits, waits for a higher one. */
  lemma HolderWantsMore(s: seq<Thread>, j: nat, l: Lock, shared: bool)
    requires Inv(s) && j < |s| && Holding(s[j], l, shared)
    ensures Unfinished(s, j)
    ensures s[j].program[s[j].pc].Acquire? ==> Rank(l) < Wanted(s[j])
  {
    var t := s[j];
    assert Disciplined(t.program);
    assert t.program[..|t.program|] == t.program;
    var k :| 0 <= k < |Holds(t)| && Holds(t)[k] == Hold(l, shared);
  }

  lemma NobodyHoldsHighest(s: seq<Thread>, l: Lock, j: nat, shared: bool)
    requires Inv(s) && j < |s|
    requires forall i: nat :: Unfinished(s, i) ==> s[i].program[s[i].pc].Acquire?
    requires forall i :: 0 <= i < |s| ==> Wanted(s[i]) <= Rank(l)
    ensures !Holding(s[j], l, shared)
  {
    if Holding(s[j], l, shared) {
      HolderWantsMore(s, j, l, shared);
    }
  }

  lemma HighestIsFree(s: seq<Thread>, l: Lock, i: nat)
    requires Inv(s)
    requires forall i: nat :: Unfinished(s, i) ==> s[i].program[s[i].pc].Acquire?
    requires forall i :: 0 <= i < |s| ==> Wanted(s[i]) <= Rank(l)
    ensures Free(s, l, i, true) && Free(s, l, i, false)
  {
    forall j, shared | 0 <= j < |s| ensures !Holding(s[j], l, shared) {
      NobodyHoldsHighest(s, l, j, shared);
    }
  }

  /** As long as some thread is unfinished, some thread can step. */
  lemma SomeoneCanStep(s: seq<Thread>, u: nat) returns (i: nat)
    requires Inv(s) && Unfinished(s, u)
    ensures CanStep(s, i)
  {
    if r: nat :| Unfinished(s, r) && s[r].program[s[r].pc].Release? {
      return r;
    }
    i := HighestWanted(s);
    assert s[u].program[s[u].pc].Acquire?;
    assert 0 <= Wanted(s[u]) <= Wanted(s[i]);
    var l := s[i].program[s[i].pc].lock;
    HighestIsFree(s, l, i);
    if w: nat :| w != i && WriterWaits(s, l, w) {
      HighestIsFree(s, l, w);
      return w;
    }
  }

  lemma StepKeeps(s: seq<Thread>, t: seq<Thread>, i: nat)
    requires Inv(s) && Step(s, t, i)
    ensures Inv(t)
  {
  }

  lemma {:induction false} RunKeeps(run: seq<seq<Thread>>, work: seq<seq<Task>>, k: nat)
    requires IsRun(run, work) && k < |run|
    ensures Inv(run[k]) && |run[k]| == |work|
  {
    if k == 0 {
      forall i | 0 <= i < |work| ensures Disciplined(run[0][i].program) {
        ProgramDisciplined(work[i]);
      }
    } else {
      RunKeeps(run, work, k - 1);
      assert Moves(run[k - 1], run[k - 1 + 1]);
      var i: nat :| Step(run[k - 1], run[k], i);
      StepKeeps(run[k - 1], run[k], i);
    }
  }

  /** Deadlock freedom: in every reachable interleaving of any tasks on any number of threads, as long as a thread
      is unfinished, some thread can step. */
  lemma DeadlockFree(run: seq<seq<Thread>>, work: seq<seq<Task>>, k: nat, u: nat) returns (i: nat)
    requires IsRun(run, work) && k < |run| && Unfinished(run[k], u)
    ensures Well(run[k]) && CanStep(run[k], i)
  {
    RunKeeps(run, work, k);
    i := SomeoneCanStep(run[k], u);
  }

  // ---------------------------------------------------------------------------------------------
  // Mutual exclusion
  // ---------------------------------------------------------------------------------------------

  ghost predicate Exclusive(s: seq<Thread>)
    requires Well(s)
  {
    forall i: nat, j: nat, l, shared :: i < |s| && j < |s| && i != j && Holding(s[i], l, false) ==>
      !Holding(s[j], l, shared)
  }

  lemma SteppedHolds(t: Thread, l: Lock, shared: bool)
    requires t.pc < |t.program| && Holding(Stepped(t), l, shared)
    ensures Holding(t, l, shared) || (t.program[t.pc] == Acquire(l, shared) && (shared || t.announced))
  {
    assert t.program[..t.pc + 1][..t.pc] == t.program[..t.pc];
  }

  lemma StepKeepsExclusive(s: seq<Thread>, t: seq<Thread>, i: nat)
    requires Well(s) && Exclusive(s) && Step(s, t, i)
    ensures Well(t) && Exclusive(t)
  {
    forall a: nat, b: nat, l, shared | a < |t| && b < |t| && a != b && Holding(t[a], l, false)
      ensures !Holding(t[b], l, shared)
    {
      if Holding(t[b], l, shared) {
        if a == i {
          SteppedHolds(s[i], l, false);
        } else if b == i {
          SteppedHolds(s[i], l, shared);
        }
      }
    }
  }

  /** Nobody else holds a lock that is held exclusively. */
  lemma {:induction false} MutualExclusion(run: seq<seq<Thread>>, work: seq<seq<Task>>, k: nat)
    requires IsRun(run, work) && k < |run|
    ensures Well(run[k]) && Exclusive(run[k])
  {
    if k == 0 {
      forall i: nat, l, shared | i < |run[0]| ensures !Holding(run[0][i], l, shared) {
        assert run[0][i].program[..0] == [];
      }
    } else {
      MutualExclusion(run, work, k - 1);
      assert Moves(run[k - 1], run[k - 1 + 1]);
      var i: nat :| Step(run[k - 1], run[k], i);
      StepKeepsExclusive(run[k - 1], run[k], i);
    }
  }

  // ---------------------------------------------------------------------------------------------
  // Appending excludes the pools
  // ---------------------------------------------------------------------------------------------

  /** The chain is locked for writing only inside the scopes of all three pools. */
  predicate Guarded(code: Code, outer: set<Lock>) {
    match code
    case Skip => true
    case Then(first, second) => Guarded(first, outer) && Guarded(second, outer)
    case With(l, shared, body) =>
      && (l == ChainLock && !shared ==> {PaymentLock, CreateLock, CloseLock} <= outer)
      && Guarded(body, if shared then outer else outer + {l})
  }

  lemma CommitGuards(outer: set<Lock>)
    ensures Guarded(COMMIT, outer)
  {
    assert Guarded(With(ChainLock, false, Skip), outer + {PaymentLock} + {CreateLock} + {CloseLock});
  }

  lemma {:induction false} ReceiveGuards(paths: seq<Received>, applied: bool, outer: set<Lock>)
    ensures Guarded(ReceiveAllCode(paths, applied), outer)
  {
    CommitGuards(outer);
    if paths != [] {
      ReceiveGuards(paths[1..], applied || paths[0].Next?, outer);
    }
  }

  lemma TaskGuards(t: Task)
    requires IsTask(t)
    ensures Guarded(CodeOf(t), {})
  {
    CommitGuards({});
    match t
    case ApplyBlocks(paths) => ReceiveGuards(paths, false, {} + {BridgeLock});
    case ProduceBlock(path, creates, payments, closes) =>
      assert Guarded(ProduceCode(path, creates, payments, closes), {});
    case _ =>
  }

  lemma {:induction false} TasksGuard(tasks: seq<Task>)
    requires forall i :: 0 <= i < |tasks| ==> IsTask(tasks[i])
    ensures Guarded(CodeOfAll(tasks), {})
  {
    hide CodeOf;
    if tasks != [] {
      TaskGuards(tasks[0]);
      TasksGuard(tasks[1..]);
    }
  }

  ghost predicate PoolsHeld(holds: seq<Hold>) {
    Hold(PaymentLock, false) in holds && Hold(CreateLock, false) in holds && Hold(CloseLock, false) in holds
  }

  ghost predicate HoldsAll(holds: seq<Hold>, outer: set<Lock>) {
    forall l :: l in outer ==> Hold(l, false) in holds
  }

  lemma HeldMore(holds: seq<Hold>, outer: set<Lock>, l: Lock, shared: bool)
    requires HoldsAll(holds, outer) && (Hold(ChainLock, false) in holds ==> PoolsHeld(holds))
    requires l == ChainLock && !shared ==> {PaymentLock, CreateLock, CloseLock} <= outer
    ensures var more := holds + [Hold(l, shared)];
            && HoldsAll(more, if shared then outer else outer + {l})
            && (Hold(ChainLock, false) in more ==> PoolsHeld(more))
  {
    var more := holds + [Hold(l, shared)];
    assert forall h :: h in more <==> h in holds || h == Hold(l, shared);
  }

  lemma {:induction false} GuardedHolds(code: Code, outer: set<Lock>, holds: seq<Hold>, k: nat)
    requires Guarded(code, outer) && HoldsAll(holds, outer) && k <= |Actions(code)|
    requires Hold(ChainLock, false) in holds ==> PoolsHeld(holds)
    ensures var held := Held(holds, Actions(code)[..k]);
            Hold(ChainLock, false) in held ==> PoolsHeld(held)
  {
    hide PoolsHeld, HoldsAll;
    assert k == 0 ==> Actions(code)[..k] == [];
    match code
    case Skip =>
    case Then(first, second) =>
      if k < |Actions(first)| {
        assert Actions(code)[..k] == Actions(first)[..k];
        GuardedHolds(first, outer, holds, k);
      } else {
        ThenDisciplined(first, second, holds, k);
        GuardedHolds(second, outer, holds, k - |Actions(first)|);
      }
    case With(l, shared, body) =>
      if k == |Actions(code)| {
        assert Actions(code)[..k] == Actions(code);
        CodeBalances(code, holds);
      } else if 0 < k {
        HeldMore(holds, outer, l, shared);
        WithDisciplined(l, shared, body, holds, k);
        GuardedHolds(body, if shared then outer else outer + {l}, holds + [Hold(l, shared)], k - 1);
      }
  }

  lemma {:induction false} ProgramsStay(run: seq<seq<Thread>>, work: seq<seq<Task>>, k: nat)
    requires IsRun(run, work) && k < |run|
    ensures |run[k]| == |work|
    ensures forall i :: 0 <= i < |run[k]| ==> run[k][i].program == Actions(CodeOfAll(work[i]))
  {
    hide Held;
    if k > 0 {
      ProgramsStay(run, work, k - 1);
      assert Moves(run[k - 1], run[k - 1 + 1]);
      var i: nat :| Step(run[k - 1], run[k], i);
    }
  }

  /** While a thread appends a block nobody else is inside any of the pools, so no admission sees the new balances with
      the old reservations. */
  lemma AppendingExcludesPools(run: seq<seq<Thread>>, work: seq<seq<Task>>, k: nat, i: nat, j: nat, pool: Lock,
                               shared: bool)
    requires IsRun(run, work) && k < |run| && i < |run[k]| && j < |run[k]| && i != j
    requires pool == PaymentLock || pool == CreateLock || pool == CloseLock
    ensures Well(run[k])
    ensures Holding(run[k][i], ChainLock, false) ==> !Holding(run[k][j], pool, shared)
  {
    hide IsRun, Held, Moves;
    MutualExclusion(run, work, k);
    ProgramsStay(run, work, k);
    TasksOf(run, work, i);
    TasksGuard(work[i]);
    GuardedHolds(CodeOfAll(work[i]), {}, [], run[k][i].pc);
  }

  lemma TasksOf(run: seq<seq<Thread>>, work: seq<seq<Task>>, i: nat)
    requires IsRun(run, work) && i < |work|
    ensures forall n :: 0 <= n < |work[i]| ==> IsTask(work[i][n])
  {
  }

  // ---------------------------------------------------------------------------------------------
  // Termination
  // ---------------------------------------------------------------------------------------------

  function Left(t: Thread): int {
    2 * (|t.program| - t.pc) - if t.announced then 1 else 0
  }

  function Work(s: seq<Thread>): int {
    if s == [] then 0 else Work(s[..|s| - 1]) + Left(s[|s| - 1])
  }

  lemma {:induction false} OneStepWorks(s: seq<Thread>, i: nat, t: Thread)
    requires i < |s|
    ensures Work(s[i := t]) == Work(s) - Left(s[i]) + Left(t)
  {
    if i == |s| - 1 {
      assert s[i := t][..|s| - 1] == s[..|s| - 1];
    } else {
      assert s[i := t][..|s| - 1] == s[..|s| - 1][i := t];
      OneStepWorks(s[..|s| - 1], i, t);
    }
  }

  lemma {:induction false} WorkNonNegative(s: seq<Thread>)
    requires forall i :: 0 <= i < |s| ==> 0 <= Left(s[i])
    ensures 0 <= Work(s)
  {
    if s != [] {
      WorkNonNegative(s[..|s| - 1]);
    }
  }

  ghost predicate AnnouncedInTime(s: seq<Thread>) {
    forall i :: 0 <= i < |s| ==> 0 <= Left(s[i])
  }

  lemma StepUsesWork(s: seq<Thread>, t: seq<Thread>, i: nat)
    requires Well(s) && AnnouncedInTime(s) && Step(s, t, i)
    ensures AnnouncedInTime(t) && Work(t) < Work(s)
  {
    OneStepWorks(s, i, Stepped(s[i]));
  }

  lemma {:induction false} StepsUseWork(run: seq<seq<Thread>>, work: seq<seq<Task>>, k: nat)
    requires IsRun(run, work) && k < |run|
    ensures AnnouncedInTime(run[k]) && Work(run[k]) + k <= Work(run[0])
  {
    if k > 0 {
      StepsUseWork(run, work, k - 1);
      RunKeeps(run, work, k - 1);
      assert Moves(run[k - 1], run[k - 1 + 1]);
      var i: nat :| Step(run[k - 1], run[k], i);
      StepUsesWork(run[k - 1], run[k], i);
    }
  }

  /** No schedule runs forever: every run has at most as many steps as there is work at its start. With
      DeadlockFree, every schedule that keeps stepping completes every task. */
  lemma RunsAreBounded(run: seq<seq<Thread>>, work: seq<seq<Task>>)
    requires IsRun(run, work)
    ensures |run| - 1 <= Work(run[0])
  {
    StepsUseWork(run, work, |run| - 1);
    WorkNonNegative(run[|run| - 1]);
  }
}
