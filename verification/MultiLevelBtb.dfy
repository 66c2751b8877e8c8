/**
 The BTB as the object the simulator drives: its methods change the fields in place, and each is
 proved to compute the corresponding function of BtbModel and BtbRuns. What holds over every run
 is the invariant of the object.
 */
module MultiLevelBtb {
  import opened Wrappers
  import opened AssociativeCache
  import opened BtbModel
  import opened BtbRuns
  import opened BtbChains
  import opened BtbCoherence
  import opened BtbContents
  import opened BtbPolicy
  import opened BtbPrefetch

  // ---------------------------------------------------------------- what every operation keeps

  /** Every chain is within its budget, no prefetch is later than it says, and nothing is prefetched
      without a prefetching policy. */
  ghost predicate Sound(cfg: Config, s: State) {
    (forall c: nat :: WithinBudget(cfg, s.engine, c)) && OnTime(cfg, s.levels, s.now) && Quiet(cfg, s)
  }

  lemma SoundShape(cfg: Config, s: State)
    requires Sound(cfg, s)
    ensures |s.engine.chains| == cfg.maxChains && InIssueOrder(s.engine.queue)
    ensures forall c: nat :: multiset(s.engine.issued)[c] <= Budget(cfg)
  {
    BudgetBounds(cfg, s.engine, 0);
    forall c: nat ensures multiset(s.engine.issued)[c] <= Budget(cfg) {
      BudgetBounds(cfg, s.engine, c);
    }
  }

  lemma InitIsSound(cfg: Config)
    ensures Sound(cfg, Init(cfg))
  {
    forall c: nat ensures WithinBudget(cfg, Init(cfg).engine, c) {
      InitWithinBudget(cfg, c);
    }
  }

  lemma StepKeepsSound(cfg: Config, s: State, op: Op)
    requires cfg.Valid() && Enabled(cfg, s, op) && Sound(cfg, s)
    ensures Sound(cfg, Step(cfg, s, op))
  {
    forall c: nat ensures WithinBudget(cfg, Step(cfg, s, op).engine, c) {
      StepKeepsBudget(cfg, s, op, c);
    }
    StepOnTime(cfg, s, op);
    StepStaysQuiet(cfg, s, op);
  }

  /** The branches of U are told apart, and the hierarchy has their committed targets. */
  ghost predicate HasCommitted(cfg: Config, U: set<Addr>, s: State, com: Committed) {
    cfg.Valid() && ToldApart(cfg, U) && CoherentState(cfg, U, s, com, None)
  }

  lemma StepKeepsCommitted(cfg: Config, U: set<Addr>, s: State, com: Committed, op: Op)
    requires cfg.Valid() && Enabled(cfg, s, op) && HasCommitted(cfg, U, s, com) && OpIn(U, op) && Guarded(cfg, s, op)
    ensures HasCommitted(cfg, U, Step(cfg, s, op), CommitAfter(com, op))
  {
    StepKeepsCoherence(cfg, U, s, com, None, op);
  }

  // ---------------------------------------------------------------- what a lookup answers

  lemma ValidIffFound(cfg: Config, s: State, pc: Addr)
    requires cfg.Valid() && Quiet(cfg, s)
    ensures ValidBranch(cfg, s.levels, pc) <==> FirstHit(cfg, s.levels, pc) != Nowhere
  {
  }

  /** Training changes no key and no target, and nothing outside L1. */
  lemma TrainedHit(cfg: Config, s: State, blockStart: Addr, pc: Addr)
    requires cfg.Valid()
    ensures var v := TrainOnLookup(cfg, s, blockStart);
            && FirstHit(cfg, v, pc) == FirstHit(cfg, s.levels, pc)
            && (FirstHit(cfg, v, pc) != Nowhere ==>
                  && HitEntry(cfg, v, pc).target == HitEntry(cfg, s.levels, pc).target
                  && (FirstHit(cfg, v, pc) == InBuffer ==> HitEntry(cfg, v, pc) == HitEntry(cfg, s.levels, pc)))
  {
  }

  /** The answer to a lookup, in terms of what was committed and prefetched. */
  ghost predicate RightAnswer(cfg: Config, U: set<Addr>, s: State, com: Committed, pc: Addr, answer: Answer)
    requires cfg.Valid()
  {
    var hit := FirstHit(cfg, s.levels, pc);
    && AnswersExactly(cfg, s.levels, s.now, pc, answer)
    && (answer == Panicked <==> !ValidBranch(cfg, s.levels, pc))
    && (answer == Threw <==> hit == InBuffer && MarkovPending(cfg, HitEntry(cfg, s.levels, pc), s.now))
    && (answer.Answer? ==>
          && hit != Nowhere && answer.latency <= LatencyOf(cfg, hit, HitEntry(cfg, s.levels, pc))
          && (HasCommitted(cfg, U, s, com) && pc in U ==> CommittedTarget(com, pc) == Some(answer.target)))
  }

  lemma LookupAnswersRight(cfg: Config, U: set<Addr>, s: State, com: Committed, op: Op)
    requires cfg.Valid() && op.LookupOp? && Sound(cfg, s)
    ensures RightAnswer(cfg, U, s, com, op.pc, LookupAnswer(cfg, TrainOnLookup(cfg, s, op.blockStart), s.now, op.pc))
  {
    ValidIffFound(cfg, s, op.pc);
    TrainedHit(cfg, s, op.blockStart, op.pc);
    AnswerIsExact(cfg, s.levels, s.now, op.pc);
    var v := TrainOnLookup(cfg, s, op.blockStart);
    var hit := FirstHit(cfg, v, op.pc);
    if hit != Nowhere {
      AnswerThrowsIff(cfg, HitEntry(cfg, v, op.pc), hit, s.now);
      if HasCommitted(cfg, U, s, com) && op.pc in U {
        FirstHitIsFresh(cfg, U, s.levels, com, None, op.pc);
      }
    }
  }

  class MultiLevelBTB {
    const cfg: Config
    var l1: Level
    var pBuffer: Level
    var l2: Level
    var l3: Level
    var engine: Engine
    var prevBlock: Option<PrevBlock>
    var now: nat

    /** The branches of the program, and their targets committed last. */
    ghost const U: set<Addr>
    ghost var committed: Committed

    ghost function TheLevels(): Levels
      reads this
    {
      Levels(l1, pBuffer, l2, l3)
    }

    ghost function View(): State
      reads this
    {
      State(TheLevels(), engine, prevBlock, now)
    }

    /** Holds between operations. */
    ghost predicate Valid()
      reads this
    {
      cfg.Valid() && Sound(cfg, View())
    }

    /** Holds within operations too. */
    ghost predicate Shape()
      reads this
    {
      cfg.Valid() && |engine.chains| == cfg.maxChains && InIssueOrder(engine.queue)
    }

    /** Lookups of branches of the program find their committed targets. */
    ghost predicate Coherent()
      reads this
    {
      HasCommitted(cfg, U, View(), committed)
    }

    constructor (cfg: Config, ghost U: set<Addr>)
      requires cfg.Valid()
      ensures Valid() && this.cfg == cfg && this.U == U && View() == Init(cfg) && committed == map[]
      ensures ToldApart(cfg, U) ==> Coherent()
    {
      this.cfg := cfg;
      this.U := U;
      l1, pBuffer, l2, l3 := map[], map[], map[], map[];
      engine := Engine([], seq(cfg.maxChains, _ => Chain(0, 0)), 1, {}, false, false, []);
      prevBlock, now := None, 0;
      committed := map[];
      new;
      InitIsSound(cfg);
      InitIsCoherent(cfg, U);
      assert View() == Init(cfg);
    }

    /** What every operation does and keeps. */
    twostate predicate Did(op: Op)
      reads this
    {
      && cfg.Valid() && Enabled(cfg, old(View()), op)
      && View() == Step(cfg, old(View()), op) && committed == CommitAfter(old(committed), op)
      && Valid() && (old(Coherent()) && OpIn(U, op) && Guarded(cfg, old(View()), op) ==> Coherent())
    }

    twostate lemma Done(op: Op)
      requires old(Valid()) && Enabled(cfg, old(View()), op)
      requires View() == Step(cfg, old(View()), op) && committed == CommitAfter(old(committed), op)
      ensures Did(op)
    {
      StepKeepsSound(cfg, old(View()), op);
      if old(Coherent()) && OpIn(U, op) && Guarded(cfg, old(View()), op) {
        StepKeepsCommitted(cfg, U, old(View()), old(committed), op);
      }
    }

    method MemInvalidate()
      requires Valid()
      modifies this
      ensures Did(InvalidateOp)
      ensures forall pc: Addr :: !ValidBranch(cfg, TheLevels(), pc)
      ensures engine == old(engine).(queue := [], chains := engine.chains)
      ensures forall c | c in engine.chains :: c.id == 0 && c.remaining == 0
    {
      SoundShape(cfg, View());
      l1, l2, pBuffer := map[], map[], map[];
      if cfg.enableL3 {
        l3 := map[];
      }
      engine := engine.(queue := [], chains := seq(cfg.maxChains, _ => Chain(0, 0)));
      Done(InvalidateOp);
    }

    /** Writing `e` to L3, over its own copy or over the way the policy gave up. */
    method WriteToL3(e: Entry, victim: Option<Key>)
      requires Shape()
      modifies this`l3
      ensures l3 == WriteBack(old(l3), cfg.Key3(e.branchAddr), victim, e)
    {
      var k := cfg.Key3(e.branchAddr);
      if k in l3 {
        l3 := l3[k := Merge(l3[k], e)];
      } else {
        if victim.Some? {
          l3 := l3 - {victim.value};
        }
        l3 := l3[k := Merge(Blank(e.branchAddr), e)];
      }
    }

    method FreeUpL1Entry(w: Victims)
      requires Shape()
      modifies this`l1, this`l2, this`l3
      ensures TheLevels() == FreeUpL1(cfg, old(TheLevels()), w)
    {
      if w.l1.None? || w.l1.value !in l1 {
        return;
      }
      var victim := l1[w.l1.value];
      var k2 := cfg.Key2(victim.branchAddr);
      if k2 in l2 {
        l2 := l2[k2 := Merge(l2[k2], victim)];
      } else {
        if w.l2.Some? && w.l2.value in l2 {
          if cfg.enableL3 {
            WriteToL3(l2[w.l2.value], w.l3);
          }
          l2 := l2 - {w.l2.value};
        }
        l2 := l2[k2 := Merge(Blank(victim.branchAddr), victim)];
      }
      if cfg.nonexclusive && cfg.enableL3 {
        WriteToL3(victim, w.l3Mirror);
      }
      l1 := l1 - {w.l1.value};
    }

    /** The slot of `pc` in L1, made if need be. */
    method InsertL1(pc: Addr, target: Addr, kind: BranchType, w: Victims)
      requires Shape() && cfg.Key1(pc) !in l1
      modifies this`l1, this`l2, this`l3
      ensures TheLevels() == BtbModel.Update(cfg, old(TheLevels()), pc, target, kind, w)
    {
      FreeUpL1Entry(w);
      var e := Blank(pc).(pfTarget := cfg.UsesBits());
      l1 := l1[cfg.Key1(pc) := e.(target := target, kind := kind)];
    }

    method OverwriteL1(pc: Addr, target: Addr, kind: BranchType, ghost w: Victims)
      requires Shape() && cfg.Key1(pc) in l1
      modifies this`l1
      ensures TheLevels() == BtbModel.Update(cfg, old(TheLevels()), pc, target, kind, w)
    {
      var k := cfg.Key1(pc);
      var e := l1[k];
      if cfg.UsesBits() && cfg.indirectAltBit && IsIndirect(kind) && e.target != target {
        e := e.(pfTarget := true, pfThrough := true);
      }
      l1 := l1[k := e.(target := target, kind := kind)];
    }

    /** Committing a taken branch; the target is in L1 afterwards. */
    method Update(pc: Addr, target: Addr, kind: BranchType, w: Victims)
      requires Valid()
      modifies this
      ensures Did(UpdateOp(pc, target, kind, w))
      ensures cfg.Key1(pc) in l1 && CommittedEntry(cfg, old(l1), l1[cfg.Key1(pc)], cfg.Key1(pc), pc, target, kind)
    {
      SoundShape(cfg, View());
      if cfg.Key1(pc) in l1 {
        OverwriteL1(pc, target, kind, w);
      } else {
        InsertL1(pc, target, kind, w);
      }
      UpdateCommits(cfg, old(TheLevels()), pc, target, kind, w);
      committed := committed[pc := target];
      Done(UpdateOp(pc, target, kind, w));
    }

    /** A committed branch in L1 learns the way it went; what it knew of the other way stays unless bits
        are cleaned on promotion. */
    method TrainPrefetchBitsOnCommit(pc: Addr, taken: bool)
      requires Valid()
      modifies this`l1
      ensures Did(CommitOp(pc, taken))
      ensures cfg.trainBitsOnCommit && cfg.Key1(pc) in l1 ==>
                var e, was := l1[cfg.Key1(pc)], old(l1)[cfg.Key1(pc)];
                && e.target == was.target && (if taken then e.pfTarget else e.pfThrough)
                && (if taken then e.pfThrough else e.pfTarget) ==
                   (!cfg.cleanBitsOnL1Promotion && if taken then was.pfThrough else was.pfTarget)
    {
      SoundShape(cfg, View());
      var k := cfg.Key1(pc);
      if cfg.trainBitsOnCommit && k in l1 {
        var e := l1[k];
        if !cfg.cleanBitsOnL1Promotion {
          e := if taken then e.(pfTarget := true) else e.(pfThrough := true);
        } else {
          e := e.(pfTarget := taken, pfThrough := !taken);
        }
        l1 := l1[k := e];
      }
      Done(CommitOp(pc, taken));
    }

    /** The two-bit counter moves one step towards the outcome, and stays between its ends. */
    method UpdateDirection(pc: Addr, taken: bool)
      requires Valid()
      modifies this`l1
      ensures Did(DirectionOp(pc, taken))
      ensures cfg.Key1(pc) in old(l1) && old(l1)[cfg.Key1(pc)].dir <= 3 ==>
                var dir, was := l1[cfg.Key1(pc)].dir, old(l1)[cfg.Key1(pc)].dir;
                dir <= 3 && (if taken then dir == was + 1 || dir == was == 3 else dir + 1 == was || dir == was == 0)
    {
      SoundShape(cfg, View());
      var k := cfg.Key1(pc);
      if k in l1 {
        var dir := l1[k].dir;
        if taken {
          dir := if dir >= 3 then 3 else dir + 1;
        } else if dir > 0 {
          dir := dir - 1;
        }
        l1 := l1[k := l1[k].(dir := dir)];
      }
      Done(DirectionOp(pc, taken));
    }

    method EnqueuePrefetch(pc: Addr, e: Entry, arrival: nat, origin: Origin, victim: Option<Key>)
      requires Shape()
      modifies this`pBuffer
      ensures TheLevels() == FillBuffer(cfg, old(TheLevels()), pc, e, arrival, origin, victim)
    {
      if victim.Some? {
        pBuffer := pBuffer - {victim.value};
      }
      pBuffer := pBuffer[cfg.KeyP(pc) :=
        Entry(pc, e.target, e.kind, e.pfTarget, e.pfThrough, e.dir, arrival, origin)];
    }

    /** The binary search of std::lower_bound, on the ordered queue. */
    method LowerBound(time: nat) returns (p: nat)
      requires Shape()
      ensures p <= |engine.queue|
      ensures forall i | 0 <= i < p :: engine.queue[i].issueTime < time
      ensures forall i | p <= i < |engine.queue| :: engine.queue[i].issueTime >= time
    {
      var hi := |engine.queue|;
      p := 0;
      while p < hi
        invariant p <= hi <= |engine.queue|
        invariant forall i | 0 <= i < p :: engine.queue[i].issueTime < time
        invariant forall i | hi <= i < |engine.queue| :: engine.queue[i].issueTime >= time
      {
        var mid := (p + hi) / 2;
        if engine.queue[mid].issueTime < time {
          p := mid + 1;
        } else {
          hi := mid;
        }
      }
    }

    /** Deferring the prefetch of the branch that ends the block at `start`, in issue order. */
    method PrefetchViaBBMap(blocks: BlockMap, start: Addr, depth: nat, base: nat, trigger: BranchType,
                            chainId: nat, allocate: bool)
      requires Shape()
      modifies this`engine
      ensures Shape() && engine == old(engine).(queue := engine.queue)
      ensures engine.queue == DeferBlock(cfg, old(TheLevels()), old(engine.queue), now, blocks, Some(start),
                                         depth, base, trigger, chainId, allocate)
    {
      if start !in blocks {
        return;
      }
      var pc := blocks[start];
      if !(cfg.Key2(pc) in l2 || (cfg.enableL3 && cfg.Key3(pc) in l3)) && allocate {
        return;
      }
      if cfg.limitRet && trigger == Return {
        return;
      }
      var d := Deferred(pc, now + base + 1, trigger, chainId, allocate, depth);
      var p := LowerBound(d.issueTime);
      InsertedAt(engine.queue, d, p);
      EnqueueKeepsOrder(engine.queue, d);
      engine := engine.(queue := engine.queue[..p] + [d] + engine.queue[p..]);
    }

    /** Deferring the taken successor, and the fall-through successor a cycle later. */
    method PrefetchBoth(blocks: BlockMap, target: Option<Addr>, through: Option<Addr>, depth: nat, base: nat,
                        trigger: BranchType, chainId: nat, allocate: bool)
      requires Shape()
      modifies this`engine
      ensures Shape() && engine == old(engine).(queue := engine.queue)
      ensures engine.queue == DeferPair(cfg, old(TheLevels()), old(engine.queue), now, blocks, target, through,
                                        depth, base, trigger, chainId, allocate)
    {
      var delay := base;
      if target.Some? {
        PrefetchViaBBMap(blocks, target.value, depth, delay, trigger, chainId, allocate);
        delay := delay + 1;
      }
      if through.Some? {
        PrefetchViaBBMap(blocks, through.value, depth, delay, trigger, chainId, allocate);
      }
    }

    method PickSuccessor(kind: BranchType, taken: bool, backward: bool, both: bool, loc: Location)
      returns (pick: (bool, bool))
      ensures pick == PickPath(cfg, engine.prevBackward && engine.prevL1Miss, kind, taken, backward, both, loc)
    {
      var forwardExit := engine.prevBackward && both && !taken && engine.prevL1Miss;
      if cfg.forwardLoopExit && forwardExit {
        return (true, false);
      }
      if loc == AtL1 || (cfg.onlyCall && !IsCall(kind)) {
        return (false, false);
      }
      if cfg.onlyCallAndBackward && !IsCall(kind) {
        if !backward || !both {
          return (false, false);
        }
      }
      if cfg.callFallthrough && IsCall(kind) {
        return (false, true);
      }
      if cfg.backwardLoopExit && backward && taken && both {
        return (false, true);
      }
      if !cfg.allConditional || !both {
        return (false, false);
      }
      return if taken then (false, true) else (true, false);
    }

    /** Which successors to prefetch. */
    method ApplyNewPBitsLogic(kind: BranchType, taken: bool, backward: bool, pfTarget: bool, pfThrough: bool, loc: Location)
      returns (pick: (bool, bool))
      ensures pick == ApplyNewPBits(cfg, engine.prevBackward && engine.prevL1Miss, kind, taken, backward, pfTarget, pfThrough, loc)
    {
      if || (loc == AtL1 && !cfg.prefetchFwExitOnL1Hit)
         || (loc == AtL2 && !cfg.UsesBits())
         || (loc == AtL3 && !cfg.UsesBits())
         || (loc == AtBuffer && !cfg.prefetchOnPrefetchHit)
      {
        return (false, false);
      }
      pick := (pfTarget, pfThrough);
      if cfg.newPBits {
        pick := PickSuccessor(kind, taken, backward, pfTarget && pfThrough, loc);
      }
    }

    /** The decision, and what the next decision needs to remember. */
    method Decide(kind: BranchType, taken: bool, backward: bool, pfTarget: bool, pfThrough: bool, loc: Location, l1Miss: bool)
      returns (pick: (bool, bool))
      requires Shape()
      modifies this`engine
      ensures Shape() && engine == old(engine).(prevBackward := backward, prevL1Miss := l1Miss)
      ensures pick == ApplyNewPBits(cfg, old(engine.prevBackward && engine.prevL1Miss), kind, taken, backward,
                                    pfTarget, pfThrough, loc)
    {
      pick := ApplyNewPBitsLogic(kind, taken, backward, pfTarget, pfThrough, loc);
      engine := engine.(prevBackward := backward, prevL1Miss := l1Miss);
    }

    method StartAlong(blocks: BlockMap, kind: BranchType, target: Addr, through: Addr, pick: (bool, bool), base: nat)
      requires Shape()
      modifies this`engine
      ensures Shape()
      ensures engine == FollowPath(cfg, old(TheLevels()), old(engine), now, blocks, kind, target, through, pick, base)
    {
      if pick.0 || pick.1 {
        var id := engine.nextChain;
        engine := engine.(nextChain := id + 1);
        PrefetchBoth(blocks, When(pick.0, target), When(pick.1, through), EffectiveDepth(cfg, kind), base, kind, id, true);
      }
    }

    method TriggerFrom(bbMap: Option<BlockMap>, pc: Addr, kind: BranchType, e: Entry, taken: bool, loc: Location, base: nat,
                       l1Miss: bool)
      requires Shape()
      modifies this`engine
      ensures Shape()
      ensures engine == Trigger(cfg, old(TheLevels()), old(engine), now, bbMap, pc, kind, e, taken, loc, base, l1Miss)
    {
      if bbMap.Some? && !(cfg.indirectAltBit && cfg.newPBits && e.pfTarget && e.pfThrough && IsIndirect(kind)) {
        var pick := Decide(kind, taken, e.target < pc, e.pfTarget, e.pfThrough, loc, l1Miss);
        StartAlong(bbMap.value, kind, e.target, pc + cfg.minInstSize, pick, base);
      }
    }

    /** Starting a chain from a branch that was found, along the successors of the policy. */
    method TryInitialTrigger(bbMap: Option<BlockMap>, pc: Addr, kind: BranchType, e: Entry, taken: bool,
                             loc: Location, base: nat)
      requires Shape()
      modifies this`engine
      ensures Shape()
      ensures engine == Trigger(cfg, old(TheLevels()), old(engine), now, bbMap, pc, kind, e, taken, loc, base, loc != AtL1)
      ensures FollowsPolicy(cfg, TheLevels(), old(engine), engine.queue, now, bbMap, Found(pc, kind, e, taken, loc, base))
      ensures Remembers(cfg, old(engine), engine, bbMap, Found(pc, kind, e, taken, loc, base))
    {
      TriggerFollowsPolicy(cfg, TheLevels(), engine, now, bbMap, Found(pc, kind, e, taken, loc, base));
      TriggerFrom(bbMap, pc, kind, e, taken, loc, base, loc != AtL1);
    }

    /** The chain tracker after an issued prefetch. */
    method SpendBudget(d: Deferred) returns (goesOn: bool)
      requires Shape()
      modifies this`engine
      ensures Shape()
      ensures goesOn == Continues(cfg, old(engine.chains), d)
      ensures engine == old(engine).(chains := if cfg.maxChains > 0 then Spend(cfg, old(engine.chains), d) else old(engine.chains))
    {
      if cfg.maxChains == 0 {
        return false;
      }
      var i, chains := d.chainId % cfg.maxChains, engine.chains;
      if d.allocate && chains[i].id != d.chainId {
        chains := chains[i := Chain(d.chainId, d.depth)];
      }
      goesOn := false;
      if chains[i].remaining > 0 {
        chains := chains[i := chains[i].(remaining := chains[i].remaining - 1)];
        goesOn := chains[i].remaining > 0;
      }
      engine := engine.(chains := chains);
    }

    method FollowChain(blocks: BlockMap, d: Deferred, e: Entry, arrival: nat)
      requires Shape()
      modifies this`engine
      ensures Shape()
      ensures engine == Follow(cfg, old(View()), blocks, d, e, arrival)
    {
      if cfg.indirectAltBit && IsIndirect(e.kind) && e.pfTarget && e.pfThrough {
        return;
      }
      PrefetchBoth(blocks, When(e.pfTarget, e.target), When(e.pfThrough, d.pc + cfg.minInstSize), 1,
                   if arrival > now then arrival - now else 0, e.kind, d.chainId, false);
    }

    /** Where a due prefetch is copied from, if it is still wanted. */
    method SourceOf(d: Deferred) returns (source: Source)
      requires Shape()
      ensures source == if Issues(cfg, View(), d) then PrefetchSource(cfg, TheLevels(), d.pc) else NoSource
    {
      if d.chainId != 0 && cfg.maxChains > 0 {
        var slot := engine.chains[d.chainId % cfg.maxChains];
        if (slot.id != d.chainId && !d.allocate) || (slot.id == d.chainId && slot.remaining == 0) {
          return NoSource;
        }
      }
      if d.pc in engine.demand || cfg.Key1(d.pc) in l1 || cfg.KeyP(d.pc) in pBuffer {
        return NoSource;
      }
      if cfg.Key2(d.pc) in l2 {
        return Source(l2[cfg.Key2(d.pc)], cfg.l2Latency, false);
      } else if cfg.enableL3 && cfg.Key3(d.pc) in l3 {
        return Source(l3[cfg.Key3(d.pc)], cfg.l3Latency, true);
      }
      return NoSource;
    }

    method ProcessEntry(blocks: BlockMap, d: Deferred, victim: Option<Key>)
      requires Shape()
      modifies this`pBuffer, this`engine
      ensures Shape()
      ensures View() == ProcessOne(cfg, old(View()), blocks, d, victim)
      ensures Processed(cfg, old(View()), View(), blocks, d, victim)
    {
      ProcessOneDoes(cfg, View(), blocks, d, victim);
      var source := SourceOf(d);
      if source.NoSource? {
        return;
      }
      var arrival := d.issueTime + source.latency;
      EnqueuePrefetch(d.pc, source.entry, arrival, ByFerret(source.fromL3, d.issueTime), victim);
      engine := engine.(issued := engine.issued + [d.chainId]);
      var goesOn := SpendBudget(d);
      assert View() == Issue(cfg, old(View()), d, victim);
      if goesOn {
        FollowChain(blocks, d, source.entry, arrival);
      }
    }

    /** How much of the queue is due. */
    method CountDue() returns (n: nat)
      requires Shape()
      ensures n == DueCount(cfg, engine.queue, now) && n <= |engine.queue|
    {
      n := 0;
      while n < |engine.queue| && (cfg.noPrefetchLatency || engine.queue[n].issueTime <= now)
        invariant n <= |engine.queue|
        invariant DueCount(cfg, engine.queue, now) == n + DueCount(cfg, engine.queue[n..], now)
      {
        assert engine.queue[n..][1..] == engine.queue[n + 1..];
        n := n + 1;
      }
    }

    method ProcessDue(blocks: BlockMap, due: seq<Deferred>, victims: seq<Option<Key>>)
      requires Shape() && |victims| == |due|
      modifies this`pBuffer, this`engine
      ensures Shape()
      ensures View() == ProcessAll(cfg, old(View()), blocks, due, victims)
    {
      ghost var goal := ProcessAll(cfg, View(), blocks, due, victims);
      assert due[0..] == due && victims[0..] == victims;
      for i := 0 to |due|
        invariant Shape()
        invariant ProcessAll(cfg, View(), blocks, due[i..], victims[i..]) == goal
      {
        ProcessAllHead(cfg, View(), blocks, due, victims, i);
        ProcessEntry(blocks, due[i], victims[i]);
      }
    }

    /** One clock cycle of the prefetch engine: what is due leaves the queue, and no chain exceeds its budget. */
    method ProcessDeferredPrefetchQueue(blocks: BlockMap, victims: seq<Option<Key>>)
      requires Valid() && |victims| == DueCount(cfg, engine.queue, now)
      modifies this`pBuffer, this`engine, this`now
      ensures Did(CycleOp(blocks, victims))
      ensures engine.demand == {} && now == old(now) + 1
      ensures forall c: nat :: multiset(engine.issued)[c] <= Budget(cfg)
    {
      SoundShape(cfg, View());
      var n := CountDue();
      var due := engine.queue[..n];
      engine := engine.(queue := engine.queue[n..]);
      ProcessDue(blocks, due, victims);
      engine, now := engine.(demand := {}), now + 1;
      Done(CycleOp(blocks, victims));
      SoundShape(cfg, View());
    }

    /** The previous branch learns, if it is still in L1, which successor was fetched. */
    method TrainPrevious(blockStart: Addr)
      requires Shape()
      modifies this`l1
      ensures TheLevels() == TrainOnLookup(cfg, old(View()), blockStart)
    {
      if cfg.trainBitsOnLookup && blockStart != 0 && prevBlock.Some? {
        var k := cfg.Key1(prevBlock.value.branchPC);
        if k in l1 {
          if blockStart == prevBlock.value.target {
            l1 := l1[k := l1[k].(pfTarget := true)];
          }
          if blockStart == prevBlock.value.fallThrough {
            l1 := l1[k := l1[k].(pfThrough := true)];
          }
        }
      }
    }

    /** Where a branch is, and what is known of it there. */
    method Find(pc: Addr) returns (hit: HitLevel, found: Entry)
      requires Shape()
      ensures hit == FirstHit(cfg, TheLevels(), pc)
      ensures hit != Nowhere ==> found == HitEntry(cfg, TheLevels(), pc)
    {
      if cfg.Key1(pc) in l1 {
        return InL1, l1[cfg.Key1(pc)];
      }
      if cfg.LooksInBuffer() && cfg.KeyP(pc) in pBuffer {
        return InBuffer, pBuffer[cfg.KeyP(pc)];
      }
      if cfg.Key2(pc) in l2 {
        return InL2, l2[cfg.Key2(pc)];
      }
      if cfg.enableL3 && cfg.Key3(pc) in l3 {
        return InL3, l3[cfg.Key3(pc)];
      }
      return Nowhere, Blank(pc);
    }

    /** Moving a branch that was found to L1. */
    method MoveToL1(pc: Addr, w: Victims, hit: HitLevel, found: Entry)
      requires Shape() && hit == FirstHit(cfg, TheLevels(), pc) && hit != Nowhere && found == HitEntry(cfg, TheLevels(), pc)
      modifies this`l1, this`pBuffer, this`l2, this`l3
      ensures TheLevels() == Promote(cfg, old(TheLevels()), pc, w)
    {
      var k := cfg.Key1(pc);
      match hit {
        case InL1 =>
        case InBuffer =>
          FreeUpL1Entry(w);
          l1, pBuffer := l1[k := Promoted(cfg, pc, found)], pBuffer - {cfg.KeyP(pc)};
        case InL2 =>
          if !cfg.nonexclusive {
            l2 := l2 - {cfg.Key2(pc)};
          }
          FreeUpL1Entry(w);
          l1 := l1[k := Promoted(cfg, pc, found)];
        case InL3 =>
          if !cfg.nonexclusive {
            l3 := l3 - {cfg.Key3(pc)};
          }
          FreeUpL1Entry(w);
          l1 := l1[k := Merge(Blank(pc), found)];
      }
    }

    method AnswerFor(hit: HitLevel, found: Entry) returns (answer: Answer)
      requires Shape() && hit != Nowhere
      ensures answer == AnswerOf(cfg, hit, found, now)
    {
      match hit {
        case InL1 => return Answer(found.target, cfg.l1Latency);
        case InL2 => return Answer(found.target, cfg.l2Latency);
        case InL3 => return Answer(found.target, cfg.l3Latency);
        case InBuffer =>
          var remaining := Remaining(cfg, found, now);
          if remaining > SourceLatency(cfg, found) {
            return Threw;
          }
          return Answer(found.target, remaining);
      }
    }

    /** The first successor that is in L2 but neither in L1 nor in the buffer. */
    method PickMarkovSuccessor(successors: seq<Addr>) returns (pick: MarkovPick)
      requires Shape()
      ensures pick == PickMarkov(cfg, TheLevels(), successors, 0)
      ensures IsFirstPick(cfg, TheLevels(), successors, pick)
    {
      PicksFirst(cfg, TheLevels(), successors);
      var skipped := 0;
      assert successors[0..] == successors;
      for i := 0 to |successors|
        invariant PickMarkov(cfg, TheLevels(), successors, 0) == PickMarkov(cfg, TheLevels(), successors[i..], skipped)
      {
        var pc := successors[i];
        assert successors[i..][1..] == successors[i + 1..];
        if pc == 0 {
        } else if cfg.Key1(pc) in l1 {
          skipped := skipped + 1;
        } else if cfg.Key2(pc) in l2 {
          if cfg.KeyP(pc) !in pBuffer {
            return Pick(pc, skipped);
          }
          skipped := skipped + 1;
        }
      }
      return NoPick;
    }

    /** Prefetching along the Markov table. */
    method PrefetchMarkovSuccessor(table: MarkovTable, pc: Addr, base: nat, depth: nat, victims: seq<Option<Key>>)
      requires Shape()
      modifies this`pBuffer
      ensures TheLevels() == MarkovFill(cfg, old(TheLevels()), now, table, pc, base, depth, victims)
      decreases depth
    {
      if pc !in table {
        return;
      }
      var pick := PickMarkovSuccessor(table[pc]);
      if pick.NoPick? {
        return;
      }
      PickedIsMissing(cfg, TheLevels(), table[pc], 0);
      var extra := base + pick.skipped;
      EnqueuePrefetch(pick.pc, l2[cfg.Key2(pick.pc)], now + cfg.l2Latency + extra, ByMarkov(now, extra), NextVictim(victims));
      if depth > 2 {
        PrefetchMarkovSuccessor(table, pick.pc, cfg.l2Latency + extra, depth - 1, LaterVictims(victims));
      }
    }

    method FinishHit(hit: HitLevel, found: Entry, op: Op)
      requires Shape() && hit != Nowhere && op.LookupOp?
      modifies this`engine, this`pBuffer
      ensures Shape()
      ensures View() == AfterHit(cfg, old(View()), op, hit, found).(prevBlock := old(prevBlock))
    {
      TryInitialTrigger(op.bbMap, op.pc, op.kind, found,
                        if hit == InL1 || hit == InBuffer then op.basePrediction else op.taken,
                        TriggerAt(hit), TriggerBase(cfg, hit, found, now));
      if cfg.limitedMarkov && (hit == InBuffer || hit == InL2) {
        PrefetchMarkovSuccessor(op.markov, op.pc, TriggerBase(cfg, hit, found, now), cfg.prefetchDepth, op.fills);
      }
    }

    method RecordPrevBlock(op: Op, found: Entry)
      requires op.LookupOp?
      modifies this`prevBlock
      ensures prevBlock == Remembered(cfg, old(View()), op, found)
    {
      if cfg.trainBitsOnLookup && op.blockStart != 0 {
        prevBlock := Some(PrevBlock(op.pc, found.target, op.pc + cfg.minInstSize));
      }
    }

    method DemandLookup(op: Op) returns (answer: Answer)
      requires Shape() && op.LookupOp?
      modifies this`l1, this`pBuffer, this`l2, this`l3, this`engine, this`prevBlock
      ensures answer == LookupAnswer(cfg, TrainOnLookup(cfg, old(View()), op.blockStart), now, op.pc)
      ensures View() == Lookup(cfg, old(View()), op)
    {
      engine := engine.(demand := engine.demand + {op.pc});
      TrainPrevious(op.blockStart);
      var hit, found := Find(op.pc);
      if hit == Nowhere {
        return Panicked;
      }
      RecordPrevBlock(op, found);
      answer := AnswerFor(hit, found);
      if answer != Threw {
        MoveToL1(op.pc, op.w, hit, found);
        FinishHit(hit, found, op);
      }
    }

    /** A demand lookup: it finds the committed target in bounded time, panics only for a branch that is in
        no level, and throws only for a Markov prefetch that is still too far away. */
    method LookupWithLatency(op: Op) returns (answer: Answer)
      requires Valid() && op.LookupOp?
      modifies this
      ensures Did(op)
      ensures RightAnswer(cfg, U, old(View()), old(committed), op.pc, answer)
      ensures LookedUp(cfg, old(View()), op, View())
      ensures answer.Answer? ==> cfg.Key1(op.pc) in l1
    {
      SoundShape(cfg, View());
      LookupAnswersRight(cfg, U, View(), committed, op);
      answer := DemandLookup(op);
      LookupFollowsPolicy(cfg, old(View()), op);
      Done(op);
      if answer.Answer? {
        LookupEndsInL1(cfg, old(View()), op);
      }
    }

    /** The quick check before a lookup. */
    method IsValid(pc: Addr) returns (known: bool)
      requires Valid()
      ensures known <==> FirstHit(cfg, TheLevels(), pc) != Nowhere
    {
      ValidIffFound(cfg, View(), pc);
      return cfg.Key1(pc) in l1 || cfg.KeyP(pc) in pBuffer || cfg.Key2(pc) in l2 || (cfg.enableL3 && cfg.Key3(pc) in l3);
    }
  }

  lemma ProcessAllHead(cfg: Config, s: State, blocks: BlockMap, due: seq<Deferred>, victims: seq<Option<Key>>, i: nat)
    requires cfg.Valid() && |s.engine.chains| == cfg.maxChains && |victims| == |due| && i < |due|
    ensures ProcessAll(cfg, s, blocks, due[i..], victims[i..]) ==
            ProcessAll(cfg, ProcessOne(cfg, s, blocks, due[i], victims[i]), blocks, due[i + 1..], victims[i + 1..])
  {
    assert due[i..][1..] == due[i + 1..] && victims[i..][1..] == victims[i + 1..];
  }

  /** Inserting at the lower bound is inserting by issue time. */
  lemma {:induction false} InsertedAt(queue: seq<Deferred>, d: Deferred, p: nat)
    requires p <= |queue|
    requires forall i | 0 <= i < p :: queue[i].issueTime < d.issueTime
    requires forall i | p <= i < |queue| :: queue[i].issueTime >= d.issueTime
    ensures Enqueue(queue, d) == queue[..p] + [d] + queue[p..]
  {
    if p == 0 {
      assert queue[..0] + [d] + queue[0..] == [d] + queue;
    } else {
      InsertedAt(queue[1..], d, p - 1);
      assert queue[1..][..p - 1] == queue[1..p] && queue[1..][p - 1..] == queue[p..];
    }
  }
}
