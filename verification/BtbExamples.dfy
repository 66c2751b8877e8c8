/** Concrete runs that show what goes wrong. */
module BtbExamples {
  import opened Wrappers
  import opened AssociativeCache
  import opened BtbModel
  import opened BtbRuns
  import opened BtbCoherence
  import opened BtbHazard
  import opened BtbScenario
  import BtbInclusion

  /** The chain prefetcher, trained at commit; and the Markov prefetcher. */
  const FERRET := Small(true, false, 1, 0)
  const MARKOV := Small(false, true, 1, 0)

  // Branches A at 4, T at 8 and C at 12.

  const PROGRAM: set<Addr> := {4, 8, 12}

  /** A run that is possible, of branches of the program, and in which no commit contradicts the buffer. */
  ghost predicate Guards(cfg: Config, ops: seq<Op>, s: State)
    requires cfg.Valid()
  {
    Reaches(cfg, ops, s) && GuardedRun(cfg, PROGRAM, Init(cfg), ops)
  }

  lemma {:induction false} GuardedAppend(cfg: Config, s: State, ops: seq<Op>, op: Op)
    requires cfg.Valid() && Legal(cfg, s, ops) && GuardedRun(cfg, PROGRAM, s, ops)
    requires Enabled(cfg, Run(cfg, s, ops), op) && OpIn(PROGRAM, op) && Guarded(cfg, Run(cfg, s, ops), op)
    ensures GuardedRun(cfg, PROGRAM, s, ops + [op])
    decreases |ops|
  {
    if ops == [] {
      assert ops + [op] == [op] && [op][1..] == [];
    } else {
      GuardedAppend(cfg, Step(cfg, s, ops[0]), ops[1..], op);
      assert (ops + [op])[1..] == ops[1..] + [op];
    }
  }

  lemma ExtendGuarded(cfg: Config, ops: seq<Op>, s: State, op: Op, s': State)
    requires cfg.Valid() && Guards(cfg, ops, s) && Does(cfg, s, op, s') && OpIn(PROGRAM, op) && Guarded(cfg, s, op)
    ensures Guards(cfg, ops + [op], s')
  {
    Extend(cfg, ops, s, op, s');
    GuardedAppend(cfg, Init(cfg), ops, op);
  }

  /** A, T and C are committed one after the other. */
  function Warming(): seq<Op> {
    [] + [Commit(4, 100, None)] + [Commit(8, 20, Some(4))] + [Commit(12, 40, Some(8))]
  }

  /** C is in L1, the others in L2. */
  ghost predicate Warm(s: State, bit: bool) {
    && s.levels.l1 == map[12 := Branch(12, 40, bit)] && s.levels.pb == map[]
    && s.levels.l2 == map[4 := Branch(4, 100, bit), 8 := Branch(8, 20, bit)] && s.prevBlock == None && s.now == 0
  }

  lemma WarmUp(cfg: Config) returns (s: State)
    requires IsSmall(cfg)
    ensures Guards(cfg, Warming(), s) && Warm(s, cfg.UsesBits()) && s.engine == Init(cfg).engine
  {
    var a, t, c := Commit(4, 100, None), Commit(8, 20, Some(4)), Commit(12, 40, Some(8));
    var s1 := CommitFirst(cfg, 4, 100);
    ExtendGuarded(cfg, [], Init(cfg), a, s1);
    var s2 := CommitSwaps(cfg, s1, Branch(4, 100, cfg.UsesBits()), 8, 20);
    ExtendGuarded(cfg, [] + [a], s1, t, s2);
    s := CommitSwaps(cfg, s2, Branch(8, 20, cfg.UsesBits()), 12, 40);
    ExtendGuarded(cfg, [] + [a] + [t], s2, c, s);
  }

  // ---------------------------------------------------------------- a commit that goes stale

  /** The target of T is the block that A ends. */
  const BLOCKS: BlockMap := map[20 := 4]

  function LookupT(): Op {
    LookupIn(Branch(8, 20, true), Branch(12, 40, true), BLOCKS)
  }

  function Wait(): Op {
    CycleOp(BLOCKS, [])
  }

  function Fill(): Op {
    CycleOp(BLOCKS, [FREE_WAY])
  }

  /** Commit A, T and C; look up T, which prefetches A; commit another target of A; push A out of L1. */
  function StaleRun(): seq<Op> {
    Warming() + [LookupT()] + [Wait()] + [Wait()] + [Fill()] + [Commit(4, 200, Some(8))] + [Commit(8, 20, Some(4))]
  }

  function PrefetchOfA(): Deferred {
    Deferred(4, 2, DirectUncond, 1, true, 1)
  }

  function BufferedA(): Entry {
    Branch(4, 100, true).(readyAt := 3, origin := ByFerret(false, 2))
  }

  /** T is in L1, the others in L2. */
  ghost predicate Hot(s: State) {
    && s.levels.l1 == map[8 := Branch(8, 20, true)] && s.engine.chains == []
    && s.levels.l2 == map[4 := Branch(4, 100, true), 12 := Branch(12, 40, true)]
  }

  lemma LookupQueuesA(s: State) returns (s': State)
    requires Warm(s, true) && s.engine == Init(FERRET).engine
    ensures Does(FERRET, s, LookupT(), s') && Hot(s') && s'.levels.pb == map[]
    ensures s'.engine.queue == [PrefetchOfA()] && s'.now == 0
  {
    s' := LookupOpensChain(FERRET, s, Branch(8, 20, true), Branch(12, 40, true), BLOCKS);
    LevelsSwapped(s.levels.l2);
    QueueOfT(s'.levels);
  }

  lemma LevelsSwapped(l2: Level)
    requires l2 == map[4 := Branch(4, 100, true), 8 := Branch(8, 20, true)]
    ensures (l2 - {8})[12 := Branch(12, 40, true)] == map[4 := Branch(4, 100, true), 12 := Branch(12, 40, true)]
  {
  }

  lemma QueueOfT(v: Levels)
    requires Has(v.l2, Branch(4, 100, true))
    ensures DeferPair(FERRET, v, [], 0, BLOCKS, Some(20), None, 1, 1, DirectUncond, 1, true) == [PrefetchOfA()]
  {
  }

  lemma PrefetchArrives(s: State) returns (s': State)
    requires Hot(s) && s.levels.pb == map[] && s.engine.demand == {} && s.engine.queue == [PrefetchOfA()] && s.now == 2
    ensures Does(FERRET, s, Fill(), s') && Hot(s') && s'.levels.pb == map[4 := BufferedA()] && s'.now == 3
  {
    var d, popped := PrefetchOfA(), Popped(s, []);
    FillIsPossible(FERRET, popped, d, Branch(4, 100, true));
    IssueFills(FERRET, popped, d, Branch(4, 100, true));
    assert [d] + [] == [d];
    s' := CycleOfOne(FERRET, s, d, [], BLOCKS, ProcessOne(FERRET, popped, BLOCKS, d, FREE_WAY));
  }

  lemma Prefetching(ops: seq<Op>, s: State) returns (s': State)
    requires Guards(FERRET, ops, s) && Warm(s, true) && s.engine == Init(FERRET).engine
    ensures Guards(FERRET, ops + [LookupT()] + [Wait()] + [Wait()] + [Fill()], s')
    ensures Hot(s') && s'.levels.pb == map[4 := BufferedA()] && s'.now == 3
  {
    var s1 := LookupQueuesA(s);
    ExtendGuarded(FERRET, ops, s, LookupT(), s1);
    var s2 := NothingDue(FERRET, s1, BLOCKS);
    ExtendGuarded(FERRET, ops + [LookupT()], s1, Wait(), s2);
    var s3 := NothingDue(FERRET, s2, BLOCKS);
    ExtendGuarded(FERRET, ops + [LookupT()] + [Wait()], s2, Wait(), s3);
    s' := PrefetchArrives(s3);
    ExtendGuarded(FERRET, ops + [LookupT()] + [Wait()] + [Wait()], s3, Fill(), s');
  }

  lemma CommitAndPushOut(ops: seq<Op>, s: State) returns (s': State)
    requires Reaches(FERRET, ops, s) && Hot(s) && s.levels.pb == map[4 := BufferedA()] && s.now == 3
    ensures Reaches(FERRET, ops + [Commit(4, 200, Some(8))] + [Commit(8, 20, Some(4))], s')
    ensures s'.now == 3 && 4 !in s'.levels.l1 && s'.levels.pb == map[4 := BufferedA()]
  {
    var s1 := CommitSwaps(FERRET, s, Branch(8, 20, true), 4, 200);
    Extend(FERRET, ops, s, Commit(4, 200, Some(8)), s1);
    s' := CommitSwaps(FERRET, s1, Branch(4, 200, true), 8, 20);
    Extend(FERRET, ops + [Commit(4, 200, Some(8))], s1, Commit(8, 20, Some(4)), s');
  }

  lemma {:induction false} CommittedAppend(com: Committed, ops: seq<Op>, op: Op)
    ensures CommittedBy(com, ops + [op]) == CommitAfter(CommittedBy(com, ops), op)
    decreases |ops|
  {
    if ops == [] {
      assert ops + [op] == [op] && [op][1..] == [];
    } else {
      CommittedAppend(CommitAfter(com, ops[0]), ops[1..], op);
      assert (ops + [op])[1..] == ops[1..] + [op];
    }
  }

  lemma LastCommit(ops: seq<Op>)
    ensures CommittedTarget(CommittedBy(map[], ops + [Commit(4, 200, Some(8))] + [Commit(8, 20, Some(4))]), 4) == Some(200)
  {
    CommittedAppend(map[], ops, Commit(4, 200, Some(8)));
    CommittedAppend(map[], ops + [Commit(4, 200, Some(8))], Commit(8, 20, Some(4)));
  }

  lemma StaleRunReaches() returns (s: State)
    ensures Reaches(FERRET, StaleRun(), s) && s.now == 3 && 4 !in s.levels.l1 && s.levels.pb == map[4 := BufferedA()]
  {
    var s0 := WarmUp(FERRET);
    var s1 := Prefetching(Warming(), s0);
    s := CommitAndPushOut(Warming() + [LookupT()] + [Wait()] + [Wait()] + [Fill()], s1);
  }

  /** A commit that the buffer contradicts is lost: the lookup answers with the target before it. */
  lemma ConflictingCommitIsLost()
    ensures CommittedTarget(CommittedBy(map[], StaleRun()), 4) == Some(200)
    ensures exists s :: Reaches(FERRET, StaleRun(), s) && LookupAnswer(FERRET, s.levels, s.now, 4) == Answer(100, 0)
  {
    LastCommit(Warming() + [LookupT()] + [Wait()] + [Wait()] + [Fill()]);
    var s := StaleRunReaches();
    OldTargetShows(s);
  }

  lemma OldTargetShows(s: State)
    requires s.now == 3 && 4 !in s.levels.l1 && s.levels.pb == map[4 := BufferedA()]
    ensures LookupAnswer(FERRET, s.levels, s.now, 4) == Answer(100, 0)
  {
  }

  lemma ProgramIsToldApart()
    ensures ToldApart(FERRET, PROGRAM) && !Roomy(FERRET, PROGRAM, 4)
  {
    assert SetMates(FERRET, PROGRAM, 4) == PROGRAM;
  }

  /** The commit of another target for A, after the guarded run. */
  ghost predicate UnsafeCommit(ops: seq<Op>, s: State, op: Op) {
    && Guards(FERRET, ops, s) && Enabled(FERRET, s, op) && Realistic(FERRET, s, op)
    && !StaysCoherent(FERRET, PROGRAM, Step(FERRET, s, op), CommitAfter(CommittedBy(map[], ops), op))
  }

  lemma CommitIsUnsafe(ops: seq<Op>, s: State)
    requires Guards(FERRET, ops, s) && Hot(s) && s.levels.pb == map[4 := BufferedA()]
    ensures UnsafeCommit(ops, s, Commit(4, 200, Some(8)))
  {
    var s1 := CommitSwaps(FERRET, s, Branch(8, 20, true), 4, 200);
    ProgramIsToldApart();
    UpdateSafeIff(FERRET, PROGRAM, ops, Commit(4, 200, Some(8)));
  }

  /** The same by the general result: after a guarded run, a possible commit that is not safe. */
  lemma UnsafeCommitExists()
    ensures exists ops, s :: UnsafeCommit(ops, s, Commit(4, 200, Some(8)))
  {
    var s0 := WarmUp(FERRET);
    var s := Prefetching(Warming(), s0);
    CommitIsUnsafe(Warming() + [LookupT()] + [Wait()] + [Wait()] + [Fill()], s);
  }

  // ---------------------------------------------------------------- a lookup that throws

  /** The lookup of T, after which the Markov table expects A. */
  function LookupBeforeA(): Op {
    LookupOp(8, DirectUncond, true, true, 0, None, map[8 := [4]], Evicting(Some(12)), [None])
  }

  function ExpectedA(): Entry {
    Branch(4, 100, false).(readyAt := 2, origin := ByMarkov(0, 1))
  }

  lemma MarkovFillsA(v: Levels)
    requires v.pb == map[] && v.l1 == map[8 := Branch(8, 20, false)] && Has(v.l2, Branch(4, 100, false))
    ensures PicksMarkov(MARKOV, v, 0, map[8 := [4]], 8, 1, 1, [None])
    ensures MarkovFill(MARKOV, v, 0, map[8 := [4]], 8, 1, 1, [None]).pb == map[4 := ExpectedA()]
    ensures MarkovFill(MARKOV, v, 0, map[8 := [4]], 8, 1, 1, [None]).l1 == v.l1
  {
    assert PickMarkov(MARKOV, v, [4], 0) == Pick(4, 0);
    assert Rivals(MARKOV.gp, v.pb.Keys, MARKOV.KeyP(4)) == {};
  }

  lemma LookupExpectsA(s: State) returns (s': State)
    requires Warm(s, false) && s.engine == Init(MARKOV).engine
    ensures Does(MARKOV, s, LookupBeforeA(), s')
    ensures s'.levels.l1 == map[8 := Branch(8, 20, false)] && s'.levels.pb == map[4 := ExpectedA()] && s'.now == 0
  {
    PromoteSwaps(MARKOV, s.levels, Branch(8, 20, false), Branch(12, 40, false));
    MarkovFillsA(Promote(MARKOV, s.levels, 8, Evicting(Some(12))));
    s' := Step(MARKOV, s, LookupBeforeA());
  }

  lemma MarkovRunReaches() returns (s: State)
    ensures Reaches(MARKOV, Warming() + [LookupBeforeA()], s)
    ensures s.levels.l1 == map[8 := Branch(8, 20, false)] && s.levels.pb == map[4 := ExpectedA()] && s.now == 0
  {
    var s0 := WarmUp(MARKOV);
    s := LookupExpectsA(s0);
    Extend(MARKOV, Warming(), s0, LookupBeforeA(), s);
  }

  /** A branch that the Markov prefetcher just fetched cannot be looked up in the same cycle: the
      lookup subtracts a larger cycle count from a smaller one. */
  lemma LookupAfterMarkovThrows()
    ensures exists s :: && Reaches(MARKOV, Warming() + [LookupBeforeA()], s)
                        && ValidBranch(MARKOV, s.levels, 4) && LookupAnswer(MARKOV, s.levels, s.now, 4) == Threw
  {
    var s := MarkovRunReaches();
    assert LookupAnswer(MARKOV, s.levels, s.now, 4) == Threw;
  }

  // ---------------------------------------------------------------- promises that are broken

  /** Committing A again while it is in L2 puts it in L1 as well, although the hierarchy is exclusive. */
  lemma CommitDuplicates()
    ensures exists s :: && Guards(FERRET, Warming() + [Commit(4, 100, Some(12))], s)
                        && !BtbInclusion.NonRedundant(FERRET, PROGRAM, s.levels)
  {
    var s0 := WarmUp(FERRET);
    var s := CommitSwaps(FERRET, s0, Branch(12, 40, true), 4, 100);
    ExtendGuarded(FERRET, Warming(), s0, Commit(4, 100, Some(12)), s);
    assert !BtbInclusion.Single(FERRET, s.levels, 4);
  }

  /** One way in L1 and in L3, eight in L2; victims of L1 go to both. */
  const MIRRORED := Small(true, false, 1, 0).(enableL3 := true, nonexclusive := true, g3 := Geometry(64, 1, 1))

  function Mirror(pc: Addr, target: Addr, victim: Option<Key>, l3Victim: Option<Key>): Op {
    UpdateOp(pc, target, DirectUncond, Victims(victim, None, None, l3Victim))
  }

  lemma MirrorFirst() returns (s: State)
    ensures Does(MIRRORED, Init(MIRRORED), Mirror(4, 100, None, None), s) && s.engine.chains == []
    ensures s.levels == Levels(map[4 := Branch(4, 100, true)], map[], map[], map[])
  {
    assert Rivals(MIRRORED.g1, Init(MIRRORED).levels.l1.Keys, MIRRORED.Key1(4)) == {};
    s := Step(MIRRORED, Init(MIRRORED), Mirror(4, 100, None, None));
  }

  lemma MirrorSecond(s: State) returns (s': State)
    requires s.engine.chains == [] && s.levels == Levels(map[4 := Branch(4, 100, true)], map[], map[], map[])
    ensures Does(MIRRORED, s, Mirror(8, 20, Some(4), None), s') && s'.engine.chains == []
    ensures s'.levels == Levels(map[8 := Branch(8, 20, true)], map[], map[4 := Branch(4, 100, true)], map[4 := Branch(4, 100, true)])
  {
    assert Rivals(MIRRORED.g1, s.levels.l1.Keys, MIRRORED.Key1(8)) == {4};
    assert Rivals(MIRRORED.g2, s.levels.l2.Keys, MIRRORED.Key2(4)) == {};
    assert Rivals(MIRRORED.g3, s.levels.l3.Keys, MIRRORED.Key3(4)) == {};
    s' := Step(MIRRORED, s, Mirror(8, 20, Some(4), None));
  }

  lemma MirrorThird(s: State) returns (s': State)
    requires s.engine.chains == []
    requires s.levels == Levels(map[8 := Branch(8, 20, true)], map[], map[4 := Branch(4, 100, true)], map[4 := Branch(4, 100, true)])
    ensures Does(MIRRORED, s, Mirror(12, 40, Some(8), Some(4)), s')
    ensures 4 in s'.levels.l2 && 4 !in s'.levels.l3
  {
    assert Rivals(MIRRORED.g1, s.levels.l1.Keys, MIRRORED.Key1(12)) == {8};
    assert Rivals(MIRRORED.g2, s.levels.l2.Keys, MIRRORED.Key2(8)) == {4};
    assert Rivals(MIRRORED.g3, s.levels.l3.Keys, MIRRORED.Key3(8)) == {4};
    s' := Step(MIRRORED, s, Mirror(12, 40, Some(8), Some(4)));
  }

  /** When L3 gives up A for T, A stays in L2 alone, although L3 is meant to include L2. */
  lemma EvictionUncovers()
    ensures exists s :: && Reaches(MIRRORED, [] + [Mirror(4, 100, None, None)] + [Mirror(8, 20, Some(4), None)]
                                             + [Mirror(12, 40, Some(8), Some(4))], s)
                        && !BtbInclusion.Inclusive(MIRRORED, PROGRAM, s.levels)
  {
    var s1 := MirrorFirst();
    Extend(MIRRORED, [], Init(MIRRORED), Mirror(4, 100, None, None), s1);
    var s2 := MirrorSecond(s1);
    Extend(MIRRORED, [] + [Mirror(4, 100, None, None)], s1, Mirror(8, 20, Some(4), None), s2);
    var s3 := MirrorThird(s2);
    Extend(MIRRORED, [] + [Mirror(4, 100, None, None)] + [Mirror(8, 20, Some(4), None)], s2, Mirror(12, 40, Some(8), Some(4)), s3);
    assert BtbInclusion.In2(MIRRORED, s3.levels, 4) && !BtbInclusion.In3(MIRRORED, s3.levels, 4);
  }
}
