/**
 The budget of a chain is reached: two chains that share a tracker slot, where the second entry of a
 chain is due after the other chain has taken the slot.
 */
module BtbBudgetExample {
  import opened Wrappers
  import opened AssociativeCache
  import opened BtbModel
  import opened BtbRuns
  import opened BtbChains
  import opened BtbScenario

  /** Chains of depth 2 in a single slot. */
  const TIGHT := Small(true, false, 2, 1)

  // B at 4 goes to the block that X at 40 ends, and falls through to the block that Y at 44 ends; Y goes
  // to the block that V at 48 ends; W at 20 goes to the block that Z at 52 ends.

  const BLOCKS: BlockMap := map[100 := 40, 8 := 44, 120 := 52, 140 := 48]

  function B(): Entry { Branch(4, 100, true).(pfThrough := true) }
  function W(): Entry { Branch(20, 120, true) }
  function X(): Entry { Branch(40, 0, true) }
  function Y(): Entry { Branch(44, 140, true) }
  function V(): Entry { Branch(48, 0, true) }
  function Z(): Entry { Branch(52, 0, true) }
  function Other(): Entry { Branch(60, 0, true) }

  // ---------------------------------------------------------------- every branch in L2

  /** Only commits so far; `e` is in L1. */
  ghost predicate Storing(ops: seq<Op>, s: State, e: Entry) {
    && Reaches(TIGHT, ops, s) && s.engine == Init(TIGHT).engine && s.prevBlock == None && s.now == 0
    && s.levels.pb == map[] && s.levels.l1 == map[e.branchAddr := e]
  }

  lemma TrainB(s: State) returns (s': State)
    requires |s.engine.chains| == 1 && s.levels.l1 == map[4 := Branch(4, 100, true)]
    ensures Does(TIGHT, s, CommitOp(4, false), s') && s'.levels.l1 == map[4 := B()]
    ensures s'.levels.l2 == s.levels.l2 && s'.levels.pb == s.levels.pb
    ensures s'.engine == s.engine && s'.prevBlock == s.prevBlock && s'.now == s.now
  {
    s' := Step(TIGHT, s, CommitOp(4, false));
    assert s'.levels.l1 == map[4 := B()];
  }

  lemma StoreFirst() returns (ops: seq<Op>, s: State)
    ensures Storing(ops, s, B()) && s.levels.l2 == map[]
  {
    var s1 := CommitFirst(TIGHT, 4, 100);
    Extend(TIGHT, [], Init(TIGHT), Commit(4, 100, None), s1);
    s := TrainB(s1);
    ops := [] + [Commit(4, 100, None)] + [CommitOp(4, false)];
    Extend(TIGHT, [] + [Commit(4, 100, None)], s1, CommitOp(4, false), s);
  }

  /** A commit that sends the branch in L1 to L2. */
  lemma Store(ops: seq<Op>, s: State, e: Entry, pc: Addr, target: Addr) returns (ops': seq<Op>, s': State)
    requires Storing(ops, s, e) && Plain(e) && |s.levels.l2| < 7 && e.branchAddr !in s.levels.l2
    requires pc < 64 && pc != e.branchAddr
    ensures Storing(ops', s', Branch(pc, target, true))
    ensures s'.levels.l2 == s.levels.l2[e.branchAddr := e] && |s'.levels.l2| == |s.levels.l2| + 1
  {
    s' := CommitSwaps(TIGHT, s, e, pc, target);
    ops' := ops + [Commit(pc, target, Some(e.branchAddr))];
    Extend(TIGHT, ops, s, Commit(pc, target, Some(e.branchAddr)), s');
  }

  lemma StoreSome() returns (ops: seq<Op>, s: State)
    ensures Storing(ops, s, X()) && |s.levels.l2| == 2 && s.levels.l2 == map[4 := B(), 20 := W()]
  {
    ops, s := StoreFirst();
    ops, s := Store(ops, s, B(), 20, 120);
    ops, s := Store(ops, s, W(), 40, 0);
  }

  lemma StoreMore() returns (ops: seq<Op>, s: State)
    ensures Storing(ops, s, V()) && |s.levels.l2| == 4 && s.levels.l2.Keys == {4, 20, 40, 44}
    ensures Has(s.levels.l2, B()) && Has(s.levels.l2, W()) && Has(s.levels.l2, X()) && Has(s.levels.l2, Y())
  {
    ops, s := StoreSome();
    ops, s := Store(ops, s, X(), 44, 140);
    ops, s := Store(ops, s, Y(), 48, 0);
  }

  /** What the chains prefetch is in L2. */
  ghost predicate Below(v: Levels) {
    Has(v.l2, X()) && Has(v.l2, Y()) && Has(v.l2, V()) && Has(v.l2, Z())
  }

  lemma StoreAll() returns (ops: seq<Op>, s: State)
    ensures Storing(ops, s, Other()) && Below(s.levels) && Has(s.levels.l2, B()) && Has(s.levels.l2, W())
    ensures |s.levels.l2| == 6 && 60 !in s.levels.l2
  {
    ops, s := StoreMore();
    ops, s := Store(ops, s, V(), 52, 0);
    ops, s := Store(ops, s, Z(), 60, 0);
  }

  // ---------------------------------------------------------------- two chains

  function EntryZ(): Deferred { Deferred(52, 2, DirectUncond, 1, true, 2) }
  function EntryX(): Deferred { Deferred(40, 2, DirectUncond, 2, true, 2) }
  function EntryY(): Deferred { Deferred(44, 3, DirectUncond, 2, true, 2) }
  function EntryV(): Deferred { Deferred(48, 5, DirectUncond, 2, false, 1) }

  lemma QueueOfW(v: Levels)
    requires Below(v)
    ensures DeferPair(TIGHT, v, [], 0, BLOCKS, Some(120), None, 2, 1, DirectUncond, 1, true) == [EntryZ()]
  {
  }

  lemma QueueOfB(v: Levels)
    requires Below(v)
    ensures DeferPair(TIGHT, v, [EntryZ()], 0, BLOCKS, Some(100), Some(8), 2, 1, DirectUncond, 2, true) ==
            [EntryX(), EntryZ(), EntryY()]
  {
    var first := DeferBlock(TIGHT, v, [EntryZ()], 0, BLOCKS, Some(100), 2, 1, DirectUncond, 2, true);
    assert first == [EntryX(), EntryZ()];
    assert first[1..] == [EntryZ()] && [EntryZ()][1..] == [];
    assert Enqueue([EntryZ()], EntryY()) == [EntryZ(), EntryY()];
  }

  /** The chain of W is pending, nothing was issued. */
  ghost predicate OneOpen(s: State) {
    && s.levels.l1 == map[20 := W()] && s.levels.pb == map[] && 20 !in s.levels.l2 && |s.levels.l2| == 6
    && Below(s.levels) && Has(s.levels.l2, B())
    && s.engine.queue == [EntryZ()] && s.engine.chains == [Chain(0, 0)] && s.engine.issued == []
    && s.engine.nextChain == 2 && s.now == 0
  }

  lemma OpenW(ops: seq<Op>, s: State) returns (s': State)
    requires Storing(ops, s, Other()) && Below(s.levels) && Has(s.levels.l2, B()) && Has(s.levels.l2, W())
    requires |s.levels.l2| == 6 && 60 !in s.levels.l2
    ensures Does(TIGHT, s, LookupIn(W(), Other(), BLOCKS), s') && OneOpen(s')
  {
    SwapSize(s.levels.l2, 20, 60, Other());
    s' := LookupOpensChain(TIGHT, s, W(), Other(), BLOCKS);
    QueueOfW(s'.levels);
  }

  /** B is in L1 and the branches to prefetch in L2, with `queue` pending. */
  ghost predicate Ready(s: State, queue: seq<Deferred>, chain: Chain, issued: seq<nat>) {
    && s.levels.l1 == map[4 := B()] && Below(s.levels)
    && s.engine.queue == queue && s.engine.chains == [chain] && s.engine.issued == issued
  }

  lemma OpenB(s: State) returns (s': State)
    requires OneOpen(s)
    ensures Does(TIGHT, s, LookupIn(B(), W(), BLOCKS), s')
    ensures Ready(s', [EntryX(), EntryZ(), EntryY()], Chain(0, 0), []) && s'.levels.pb == map[] && s'.now == 0
  {
    s' := LookupOpensChain(TIGHT, s, B(), W(), BLOCKS);
    QueueOfB(s'.levels);
  }

  lemma OpenBoth() returns (ops: seq<Op>, s: State)
    ensures Reaches(TIGHT, ops, s) && Ready(s, [EntryX(), EntryZ(), EntryY()], Chain(0, 0), [])
    ensures s.levels.pb == map[] && s.now == 0
  {
    var ops0, s0 := StoreAll();
    var s1 := OpenW(ops0, s0);
    Extend(TIGHT, ops0, s0, LookupIn(W(), Other(), BLOCKS), s1);
    ops := ops0 + [LookupIn(W(), Other(), BLOCKS)];
    s := OpenB(s1);
    Extend(TIGHT, ops, s1, LookupIn(B(), W(), BLOCKS), s);
    ops := ops + [LookupIn(B(), W(), BLOCKS)];
  }

  // ---------------------------------------------------------------- the prefetches

  /** An opener that does not hold the slot takes it, and has one prefetch left. */
  lemma OpenerTakesSlot(s: State, d: Deferred, e: Entry)
    requires Fetchable(s, d, e) && Plain(e) && |s.engine.chains| == 1
    requires d.allocate && d.depth == 2 && d.chainId > 0 && s.engine.chains[0].id != d.chainId
    ensures Issues(TIGHT, s, d) && Continues(TIGHT, s.engine.chains, d) && PicksFill(TIGHT, s.levels, d.pc, FREE_WAY)
    ensures PrefetchSource(TIGHT, s.levels, d.pc) == Source(e, 1, false)
    ensures Issue(TIGHT, s, d, FREE_WAY).engine.chains == [Chain(d.chainId, 1)]
  {
    assert d.chainId % TIGHT.maxChains == 0;
    FillIsPossible(TIGHT, s, d, e);
  }

  lemma OpenerIssues(s: State, d: Deferred, e: Entry) returns (s': State)
    requires Fetchable(s, d, e) && Plain(e) && e.pfTarget && !e.pfThrough && |s.engine.chains| == 1
    requires d.allocate && d.depth == 2 && d.chainId > 0 && s.engine.chains[0].id != d.chainId && s.now == d.issueTime
    ensures Processes(TIGHT, s, d, BLOCKS, s')
    ensures s'.levels.l1 == s.levels.l1 && s'.levels.l2 == s.levels.l2 && s'.now == s.now
    ensures s'.levels.pb.Keys == s.levels.pb.Keys + {d.pc} && |s'.levels.pb| == |s.levels.pb| + 1
    ensures s'.engine.demand == s.engine.demand
    ensures s'.engine.chains == [Chain(d.chainId, 1)] && s'.engine.issued == s.engine.issued + [d.chainId]
    ensures s'.engine.queue == DeferBlock(TIGHT, s'.levels, s.engine.queue, s.now, BLOCKS, Some(e.target), 1, 1, e.kind,
                                          d.chainId, false)
  {
    OpenerTakesSlot(s, d, e);
    IssueFills(TIGHT, s, d, e);
    s' := ProcessOne(TIGHT, s, BLOCKS, d, FREE_WAY);
  }

  /** X is issued, and Z takes the slot. */
  lemma IssueXZ(s: State) returns (s': State)
    requires Ready(s, [EntryX(), EntryZ(), EntryY()], Chain(0, 0), []) && s.levels.pb == map[]
    requires s.engine.demand == {} && s.now == 2
    ensures Does(TIGHT, s, CycleOp(BLOCKS, [FREE_WAY, FREE_WAY]), s') && Ready(s', [EntryY()], Chain(1, 1), [2, 1])
    ensures s'.levels.pb.Keys == {40, 52} && |s'.levels.pb| == 2 && s'.engine.demand == {} && s'.now == 3
  {
    assert [EntryX(), EntryZ()] + [EntryY()] == [EntryX(), EntryZ(), EntryY()];
    var s1 := OpenerIssues(Popped(s, [EntryY()]), EntryX(), X());
    var s2 := OpenerIssues(s1, EntryZ(), Z());
    s' := CycleOfTwo(TIGHT, s, EntryX(), EntryZ(), [EntryY()], BLOCKS, s1, s2);
    assert s'.levels.pb.Keys == {40, 52};
  }

  /** Y opens the budget of the chain anew, and defers V. */
  lemma IssueY(s: State) returns (s': State)
    requires Ready(s, [EntryY()], Chain(1, 1), [2, 1]) && s.levels.pb.Keys == {40, 52} && |s.levels.pb| == 2
    requires s.engine.demand == {} && s.now == 3
    ensures Does(TIGHT, s, CycleOp(BLOCKS, [FREE_WAY]), s') && Ready(s', [EntryV()], Chain(2, 1), [2, 1, 2])
    ensures s'.levels.pb.Keys == {40, 44, 52} && |s'.levels.pb| == 3 && s'.now == 4
  {
    assert [EntryY()] + [] == [EntryY()];
    var s1 := OpenerIssues(Popped(s, []), EntryY(), Y());
    s' := CycleOfOne(TIGHT, s, EntryY(), [], BLOCKS, s1);
    assert s'.levels.pb.Keys == {40, 44, 52};
  }

  /** V spends what is left. */
  lemma IssueV(s: State) returns (s': State)
    requires Ready(s, [EntryV()], Chain(2, 1), [2, 1, 2]) && s.levels.pb.Keys == {40, 44, 52} && |s.levels.pb| == 3
    requires s.engine.demand == {} && s.now == 5
    ensures Does(TIGHT, s, CycleOp(BLOCKS, [FREE_WAY]), s') && s'.engine.issued == [2, 1, 2, 2]
  {
    assert [EntryV()] + [] == [EntryV()];
    FillIsPossible(TIGHT, Popped(s, []), EntryV(), V());
    s' := CycleOfOne(TIGHT, s, EntryV(), [], BLOCKS, ProcessOne(TIGHT, Popped(s, []), BLOCKS, EntryV(), FREE_WAY));
  }

  lemma WaitTwice(ops: seq<Op>, s: State) returns (ops': seq<Op>, s': State)
    requires Reaches(TIGHT, ops, s) && Ready(s, [EntryX(), EntryZ(), EntryY()], Chain(0, 0), [])
    requires s.levels.pb == map[] && s.now == 0
    ensures Reaches(TIGHT, ops', s') && Ready(s', [EntryX(), EntryZ(), EntryY()], Chain(0, 0), [])
    ensures s'.levels.pb == map[] && s'.engine.demand == {} && s'.now == 2
  {
    var s1 := NothingDue(TIGHT, s, BLOCKS);
    ops' := ops + [CycleOp(BLOCKS, [])];
    Extend(TIGHT, ops, s, CycleOp(BLOCKS, []), s1);
    s' := NothingDue(TIGHT, s1, BLOCKS);
    Extend(TIGHT, ops', s1, CycleOp(BLOCKS, []), s');
    ops' := ops' + [CycleOp(BLOCKS, [])];
  }

  lemma IssueAll(ops: seq<Op>, s: State) returns (ops': seq<Op>, s': State)
    requires Reaches(TIGHT, ops, s) && Ready(s, [EntryX(), EntryZ(), EntryY()], Chain(0, 0), [])
    requires s.levels.pb == map[] && s.engine.demand == {} && s.now == 2
    ensures Reaches(TIGHT, ops', s') && s'.engine.issued == [2, 1, 2, 2]
  {
    var one, two := CycleOp(BLOCKS, [FREE_WAY]), CycleOp(BLOCKS, [FREE_WAY, FREE_WAY]);
    var s1 := IssueXZ(s);
    Extend(TIGHT, ops, s, two, s1);
    var s2 := IssueY(s1);
    Extend(TIGHT, ops + [two], s1, one, s2);
    var s3 := NothingDue(TIGHT, s2, BLOCKS);
    Extend(TIGHT, ops + [two] + [one], s2, CycleOp(BLOCKS, []), s3);
    s' := IssueV(s3);
    ops' := ops + [two] + [one] + [CycleOp(BLOCKS, [])] + [one];
    Extend(TIGHT, ops + [two] + [one] + [CycleOp(BLOCKS, [])], s3, one, s');
  }

  /** A possible run in which a chain issues as many prefetches as its budget allows, more than the depth. */
  lemma BudgetIsReached()
    ensures exists ops, s :: Reaches(TIGHT, ops, s) && multiset(s.engine.issued)[2] == Budget(TIGHT)
    ensures Budget(TIGHT) == TIGHT.prefetchDepth + 1
  {
    var ops, s := OpenBoth();
    ops, s := WaitTwice(ops, s);
    ops, s := IssueAll(ops, s);
    assert multiset(s.engine.issued)[2] == 3;
  }
}
