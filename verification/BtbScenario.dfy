/** What it takes to write down concrete runs from the empty buffer, with victims the arrays can give up. */
module BtbScenario {
  import opened Wrappers
  import opened AssociativeCache
  import opened BtbModel
  import opened BtbRuns

  /** The operation is possible and leads to `s'`. */
  ghost predicate Does(cfg: Config, s: State, op: Op, s': State)
    requires cfg.Valid()
  {
    Enabled(cfg, s, op) && Realistic(cfg, s, op) && Step(cfg, s, op) == s'
  }

  lemma {:induction false} RunAppend(cfg: Config, s: State, ops: seq<Op>, op: Op)
    requires cfg.Valid() && Legal(cfg, s, ops) && RealisticRun(cfg, s, ops)
    requires Enabled(cfg, Run(cfg, s, ops), op) && Realistic(cfg, Run(cfg, s, ops), op)
    ensures Legal(cfg, s, ops + [op]) && RealisticRun(cfg, s, ops + [op])
    ensures Run(cfg, s, ops + [op]) == Step(cfg, Run(cfg, s, ops), op)
    decreases |ops|
  {
    if ops == [] {
      assert ops + [op] == [op] && [op][1..] == [];
    } else {
      RunAppend(cfg, Step(cfg, s, ops[0]), ops[1..], op);
      assert (ops + [op])[1..] == ops[1..] + [op];
    }
  }

  /** The run from the empty buffer is possible and ends in `s`. */
  ghost predicate Reaches(cfg: Config, ops: seq<Op>, s: State)
    requires cfg.Valid()
  {
    Legal(cfg, Init(cfg), ops) && RealisticRun(cfg, Init(cfg), ops) && Run(cfg, Init(cfg), ops) == s
  }

  lemma Extend(cfg: Config, ops: seq<Op>, s: State, op: Op, s': State)
    requires cfg.Valid() && Reaches(cfg, ops, s) && Does(cfg, s, op, s')
    ensures Reaches(cfg, ops + [op], s')
  {
    RunAppend(cfg, Init(cfg), ops, op);
  }

  // ---------------------------------------------------------------- one way in L1

  /** One way in L1, eight in the buffer and in L2, no L3; chains of up to `depth` in `chains` tracker slots. */
  function Small(commit: bool, markov: bool, depth: nat, chains: nat): (cfg: Config)
    ensures cfg.Valid()
  {
    Config(1, 4, Geometry(64, 1, 1), Geometry(64, 1, 8), Geometry(64, 1, 8), Geometry(64, 1, 8), 0, 1, 2,
           false, false, false, commit, markov, false, false, false, depth, chains, false, false,
           false, false, false, false, false, false, false, false, false)
  }

  ghost predicate IsSmall(cfg: Config) {
    cfg == Small(cfg.trainBitsOnCommit, cfg.limitedMarkov, cfg.prefetchDepth, cfg.maxChains)
  }

  function Branch(pc: Addr, target: Addr, bit: bool): Entry {
    Blank(pc).(target := target, kind := DirectUncond, pfTarget := bit)
  }

  /** An unconditional branch at an address below 64 that was not prefetched. */
  predicate Plain(e: Entry) {
    e.branchAddr < 64 && e == Branch(e.branchAddr, e.target, e.pfTarget).(pfThrough := e.pfThrough)
  }

  ghost predicate Has(level: Level, e: Entry) {
    e.branchAddr in level && level[e.branchAddr] == e
  }

  function Evicting(victim: Option<Key>): Victims {
    Victims(victim, None, None, None)
  }

  function Commit(pc: Addr, target: Addr, victim: Option<Key>): Op {
    UpdateOp(pc, target, DirectUncond, Evicting(victim))
  }

  /** One branch in L1, room in L2. */
  ghost predicate Single(v: Levels, e: Entry) {
    && v.l1 == map[e.branchAddr := e] && Plain(e) && |v.l2| < 8
    && (e.branchAddr in v.l2 ==> Plain(v.l2[e.branchAddr]) && !v.l2[e.branchAddr].pfThrough)
  }

  lemma FewerThan(keys: set<Key>, g: Geometry, k: Key)
    requires g.Valid() && |keys| < g.ways
    ensures Picks(g, keys, k, None)
  {
    assert keys == Rivals(g, keys, k) + (keys - Rivals(g, keys, k));
  }

  lemma RoomForVictim(cfg: Config, v: Levels, e: Entry)
    requires IsSmall(cfg) && Single(v, e)
    ensures PicksBelow(cfg, v, e.branchAddr, Evicting(Some(e.branchAddr)))
  {
    assert |v.l2.Keys| == |v.l2|;
    FewerThan(v.l2.Keys, cfg.g2, e.branchAddr);
  }

  lemma SwapIsPossible(cfg: Config, v: Levels, e: Entry, pc: Addr)
    requires IsSmall(cfg) && Single(v, e) && pc < 64 && pc != e.branchAddr
    ensures PicksRoom(cfg, v, pc, Evicting(Some(e.branchAddr)))
  {
    RoomForVictim(cfg, v, e);
    assert Rivals(cfg.g1, v.l1.Keys, pc) == {e.branchAddr};
  }

  lemma SwapMakesRoom(cfg: Config, v: Levels, e: Entry)
    requires IsSmall(cfg) && Single(v, e)
    ensures var room := FreeUpL1(cfg, v, Evicting(Some(e.branchAddr)));
            room.l1 == map[] && room.pb == v.pb && room.l2 == v.l2[e.branchAddr := e]
  {
  }

  /** The first commit. */
  lemma CommitFirst(cfg: Config, pc: Addr, target: Addr) returns (s': State)
    requires IsSmall(cfg) && pc < 64
    ensures Does(cfg, Init(cfg), Commit(pc, target, None), s')
    ensures s'.engine == Init(cfg).engine && s'.prevBlock == None && s'.now == 0
    ensures s'.levels.l1 == map[pc := Branch(pc, target, cfg.UsesBits())] && s'.levels.pb == map[] && s'.levels.l2 == map[]
  {
    assert Rivals(cfg.g1, Init(cfg).levels.l1.Keys, cfg.Key1(pc)) == {};
    s' := Step(cfg, Init(cfg), Commit(pc, target, None));
    assert s'.levels.l1 == map[pc := Branch(pc, target, cfg.UsesBits())];
  }

  /** With one branch in L1, the commit of another sends it to L2. */
  lemma CommitSwaps(cfg: Config, s: State, e: Entry, pc: Addr, target: Addr) returns (s': State)
    requires IsSmall(cfg) && |s.engine.chains| == cfg.maxChains && Single(s.levels, e) && pc < 64 && pc != e.branchAddr
    ensures Does(cfg, s, Commit(pc, target, Some(e.branchAddr)), s')
    ensures s'.engine == s.engine && s'.prevBlock == s.prevBlock && s'.now == s.now && s'.levels.pb == s.levels.pb
    ensures s'.levels.l1 == map[pc := Branch(pc, target, cfg.UsesBits())]
    ensures s'.levels.l2 == s.levels.l2[e.branchAddr := e]
  {
    SwapIsPossible(cfg, s.levels, e, pc);
    SwapMakesRoom(cfg, s.levels, e);
    assert pc !in s.levels.l1 && cfg.Key1(pc) == pc;
    s' := Step(cfg, s, Commit(pc, target, Some(e.branchAddr)));
  }

  // ---------------------------------------------------------------- a hit in L2

  /** `e` is in L2, and `out` in L1. */
  ghost predicate HitsL2(v: Levels, e: Entry, out: Entry) {
    && Plain(e) && Plain(out) && v.pb == map[]
    && v.l1 == map[out.branchAddr := out] && out.branchAddr !in v.l2 && Has(v.l2, e) && |v.l2| < 8
  }

  /** L1 with the victim, L2 without the branch that moves up. */
  lemma RoomToPromote(cfg: Config, v: Levels, e: Entry, out: Entry)
    requires IsSmall(cfg) && HitsL2(v, e, out)
    ensures FirstHit(cfg, v, e.branchAddr) == InL2 && Single(RoomAt(cfg, v, e.branchAddr), out)
    ensures RoomAt(cfg, v, e.branchAddr).l2 == v.l2 - {e.branchAddr} && RoomAt(cfg, v, e.branchAddr).pb == map[]
  {
    assert v.l2 == (v.l2 - {e.branchAddr})[e.branchAddr := e];
  }

  lemma PromoteInstalls(cfg: Config, v: Levels, e: Entry, out: Entry)
    requires IsSmall(cfg) && HitsL2(v, e, out) && FirstHit(cfg, v, e.branchAddr) == InL2
    ensures var room := FreeUpL1(cfg, RoomAt(cfg, v, e.branchAddr), Evicting(Some(out.branchAddr)));
            Promote(cfg, v, e.branchAddr, Evicting(Some(out.branchAddr))) == room.(l1 := room.l1[e.branchAddr := e])
  {
  }

  /** The two change places. */
  lemma PromoteSwaps(cfg: Config, v: Levels, e: Entry, out: Entry)
    requires IsSmall(cfg) && HitsL2(v, e, out)
    ensures FirstHit(cfg, v, e.branchAddr) == InL2
    ensures PicksRoom(cfg, RoomAt(cfg, v, e.branchAddr), e.branchAddr, Evicting(Some(out.branchAddr)))
    ensures var v' := Promote(cfg, v, e.branchAddr, Evicting(Some(out.branchAddr)));
            && v'.l1 == map[e.branchAddr := e] && v'.pb == map[]
            && v'.l2 == (v.l2 - {e.branchAddr})[out.branchAddr := out]
  {
    RoomToPromote(cfg, v, e, out);
    SwapIsPossible(cfg, RoomAt(cfg, v, e.branchAddr), out, e.branchAddr);
    SwapMakesRoom(cfg, RoomAt(cfg, v, e.branchAddr), out);
    PromoteInstalls(cfg, v, e, out);
  }

  lemma SwapSize(l2: Level, k: Key, k': Key, e: Entry)
    requires k in l2 && k' !in l2
    ensures |(l2 - {k})[k' := e]| == |l2|
  {
    assert l2 == (l2 - {k})[k := l2[k]];
  }

  function LookupIn(e: Entry, out: Entry, blocks: BlockMap): Op {
    LookupOp(e.branchAddr, DirectUncond, true, true, 0, Some(blocks), map[], Evicting(Some(out.branchAddr)), [])
  }

  /** The lookup of a trained branch in L2 opens a chain. */
  lemma LookupOpensChain(cfg: Config, s: State, e: Entry, out: Entry, blocks: BlockMap) returns (s': State)
    requires IsSmall(cfg) && cfg.trainBitsOnCommit && !cfg.limitedMarkov && |s.engine.chains| == cfg.maxChains
    requires HitsL2(s.levels, e, out) && (e.pfTarget || e.pfThrough)
    ensures Does(cfg, s, LookupIn(e, out, blocks), s')
    ensures s'.levels.l1 == map[e.branchAddr := e] && s'.levels.pb == map[]
    ensures s'.levels.l2 == (s.levels.l2 - {e.branchAddr})[out.branchAddr := out]
    ensures s'.engine.chains == s.engine.chains && s'.engine.issued == s.engine.issued && s'.now == s.now
    ensures s'.engine.nextChain == s.engine.nextChain + 1
    ensures s'.engine.queue == DeferPair(cfg, s'.levels, s.engine.queue, s.now, blocks, When(e.pfTarget, e.target),
                                         When(e.pfThrough, e.branchAddr + 4), cfg.prefetchDepth, 1, DirectUncond,
                                         s.engine.nextChain, true)
  {
    PromoteSwaps(cfg, s.levels, e, out);
    s' := Step(cfg, s, LookupIn(e, out, blocks));
  }

  // ---------------------------------------------------------------- cycles

  lemma NothingDue(cfg: Config, s: State, blocks: BlockMap) returns (s': State)
    requires IsSmall(cfg) && |s.engine.chains| == cfg.maxChains
    requires s.engine.queue != [] && s.engine.queue[0].issueTime > s.now
    ensures Does(cfg, s, CycleOp(blocks, []), s')
    ensures s'.levels == s.levels && s'.now == s.now + 1 && s'.engine == s.engine.(demand := {})
  {
    assert s.engine.queue[..0] == [] && s.engine.queue[0..] == s.engine.queue;
    s' := Step(cfg, s, CycleOp(blocks, []));
  }

  /** The branch of a due entry can be prefetched, into a free way of the buffer. */
  ghost predicate Fetchable(s: State, d: Deferred, e: Entry) {
    && d.pc == e.branchAddr && d.pc < 64 && d.pc !in s.levels.l1 && Has(s.levels.l2, e)
    && d.pc !in s.engine.demand && d.pc !in s.levels.pb && |s.levels.pb| < 8
  }

  const FREE_WAY: Option<Key> := None

  lemma HasFreeWay(cfg: Config, s: State, d: Deferred, e: Entry)
    requires IsSmall(cfg) && Fetchable(s, d, e)
    ensures PicksFill(cfg, s.levels, d.pc, FREE_WAY)
  {
    assert |s.levels.pb.Keys| == |s.levels.pb|;
    FewerThan(s.levels.pb.Keys, cfg.gp, cfg.KeyP(d.pc));
  }

  lemma FillIsPossible(cfg: Config, s: State, d: Deferred, e: Entry)
    requires IsSmall(cfg) && |s.engine.chains| == cfg.maxChains && Fetchable(s, d, e) && LiveChain(cfg, s.engine, d)
    ensures Issues(cfg, s, d) && PrefetchSource(cfg, s.levels, d.pc) == Source(e, 1, false)
    ensures PicksFill(cfg, s.levels, d.pc, FREE_WAY)
  {
    HasFreeWay(cfg, s, d, e);
  }

  /** What issuing a prefetch does to the levels. */
  lemma IssueFills(cfg: Config, s: State, d: Deferred, e: Entry)
    requires IsSmall(cfg) && |s.engine.chains| == cfg.maxChains && Fetchable(s, d, e) && Issues(cfg, s, d)
    requires Plain(e)
    ensures var v := Issue(cfg, s, d, FREE_WAY).levels;
            && v.l1 == s.levels.l1 && v.l2 == s.levels.l2
            && v.pb == s.levels.pb[d.pc := e.(readyAt := d.issueTime + 1, origin := ByFerret(false, d.issueTime))]
  {
  }

  function Popped(s: State, rest: seq<Deferred>): State {
    s.(engine := s.engine.(queue := rest))
  }

  /** Processing `d` is possible and leads to `s'`. */
  ghost predicate Processes(cfg: Config, s: State, d: Deferred, blocks: BlockMap, s': State)
    requires cfg.Valid()
  {
    && |s.engine.chains| == cfg.maxChains && (Issues(cfg, s, d) ==> PicksFill(cfg, s.levels, d.pc, FREE_WAY))
    && ProcessOne(cfg, s, blocks, d, FREE_WAY) == s'
  }

  ghost predicate AfterCycle(done: State, s': State) {
    s'.levels == done.levels && s'.engine == done.engine.(demand := {}) && s'.now == done.now + 1
  }

  lemma CycleOfOne(cfg: Config, s: State, d: Deferred, rest: seq<Deferred>, blocks: BlockMap, done: State) returns (s': State)
    requires cfg.Valid() && !cfg.noPrefetchLatency
    requires s.engine.queue == [d] + rest && d.issueTime <= s.now && (rest == [] || rest[0].issueTime > s.now)
    requires Processes(cfg, Popped(s, rest), d, blocks, done)
    ensures Does(cfg, s, CycleOp(blocks, [FREE_WAY]), s') && AfterCycle(done, s')
  {
    var queue, ways := s.engine.queue, [FREE_WAY];
    assert queue[1..] == rest && queue[..1] == [d] && [d][1..] == [] && ways[1..] == [];
    assert DueCount(cfg, queue, s.now) == 1;
    assert ProcessAll(cfg, Popped(s, rest), blocks, [d], ways) == done;
    assert PicksDue(cfg, Popped(s, rest), blocks, [d], ways);
    s' := Step(cfg, s, CycleOp(blocks, ways));
  }

  lemma TwoDue(cfg: Config, queue: seq<Deferred>, d1: Deferred, d2: Deferred, rest: seq<Deferred>, now: nat)
    requires !cfg.noPrefetchLatency && queue == [d1, d2] + rest && d1.issueTime <= now && d2.issueTime <= now
    requires rest == [] || rest[0].issueTime > now
    ensures DueCount(cfg, queue, now) == 2 && queue[..2] == [d1, d2] && queue[2..] == rest
  {
    assert queue[1..] == [d2] + rest && ([d2] + rest)[1..] == rest;
    assert DueCount(cfg, [d2] + rest, now) == 1 + DueCount(cfg, rest, now);
  }

  lemma CycleOfTwo(cfg: Config, s: State, d1: Deferred, d2: Deferred, rest: seq<Deferred>, blocks: BlockMap, s1: State,
                   done: State)
      returns (s': State)
    requires cfg.Valid() && !cfg.noPrefetchLatency
    requires s.engine.queue == [d1, d2] + rest && d1.issueTime <= s.now && d2.issueTime <= s.now
    requires rest == [] || rest[0].issueTime > s.now
    requires Processes(cfg, Popped(s, rest), d1, blocks, s1) && Processes(cfg, s1, d2, blocks, done)
    ensures Does(cfg, s, CycleOp(blocks, [FREE_WAY, FREE_WAY]), s') && AfterCycle(done, s')
  {
    var queue, ways := s.engine.queue, [FREE_WAY, FREE_WAY];
    TwoDue(cfg, queue, d1, d2, rest, s.now);
    assert [d1, d2][1..] == [d2] && [d2][1..] == [] && ways[1..] == [FREE_WAY];
    assert ProcessAll(cfg, s1, blocks, [d2], ways[1..]) == done;
    assert ProcessAll(cfg, Popped(s, rest), blocks, [d1, d2], ways) == ProcessAll(cfg, s1, blocks, [d2], ways[1..]);
    assert PicksDue(cfg, s1, blocks, [d2], ways[1..]);
    assert PicksDue(cfg, Popped(s, rest), blocks, [d1, d2], ways);
    s' := Step(cfg, s, CycleOp(blocks, ways));
  }
}
