/**
 What the prefetcher follows: which successors of a branch enter the deferred queue when it is looked
 up, which of them when a prefetch of it is issued, and when a due prefetch is issued at all. Everything
 is said of the state before and after, by the settings and the training bits.
 */
module BtbPolicy {
  import opened Wrappers
  import opened AssociativeCache
  import opened BtbModel
  import opened BtbRuns
  import opened BtbChains
  import opened BtbPrefetch

  // ---------------------------------------------------------------- the queue

  lemma {:induction false} EnqueueAdds(queue: seq<Deferred>, d: Deferred)
    ensures multiset(Enqueue(queue, d)) == multiset(queue) + multiset{d}
  {
    if queue != [] && queue[0].issueTime < d.issueTime {
      EnqueueAdds(queue[1..], d);
      assert queue == [queue[0]] + queue[1..];
    }
  }

  /** The queue with one entry more, or as it is. */
  function With(queue: seq<Deferred>, d: Option<Deferred>): seq<Deferred> {
    if d.Some? then Enqueue(queue, d.value) else queue
  }

  /** That adds exactly the entry, and keeps issue order. */
  lemma WithAddsOne(queue: seq<Deferred>, d: Option<Deferred>)
    ensures multiset(With(queue, d)) == multiset(queue) + (if d.Some? then multiset{d.value} else multiset{})
    ensures InIssueOrder(queue) ==> InIssueOrder(With(queue, d))
  {
    if d.Some? {
      EnqueueAdds(queue, d.value);
      if InIssueOrder(queue) {
        EnqueueKeepsOrder(queue, d.value);
      }
    }
  }

  /** The branch that ends the block at `start` is known, and returns do not trigger when limited. */
  predicate Known(cfg: Config, blocks: BlockMap, start: Addr, trigger: BranchType) {
    start in blocks && !(cfg.limitRet && trigger == Return)
  }

  /** A level below has the branch. */
  predicate Below(cfg: Config, v: Levels, pc: Addr)
    requires cfg.Valid()
  {
    cfg.Key2(pc) in v.l2 || (cfg.enableL3 && cfg.Key3(pc) in v.l3)
  }

  /** The entry that opens a chain for the block at `start`, if its branch is below. */
  function Opener(cfg: Config, v: Levels, blocks: BlockMap, start: Addr, trigger: BranchType, chain: nat, time: nat):
      Option<Deferred>
    requires cfg.Valid()
  {
    if Known(cfg, blocks, start, trigger) && Below(cfg, v, blocks[start])
    then Some(Deferred(blocks[start], time, trigger, chain, true,
                       if cfg.depthOnlyCall && trigger != CallDirect && trigger != CallIndirect then 1
                       else cfg.prefetchDepth))
    else None
  }

  /** The entry that goes on with a chain; whether its branch is below is asked when it is due. */
  function Follower(cfg: Config, blocks: BlockMap, start: Addr, trigger: BranchType, chain: nat, time: nat): Option<Deferred> {
    if Known(cfg, blocks, start, trigger) then Some(Deferred(blocks[start], time, trigger, chain, false, 1)) else None
  }

  lemma OpenerDeferred(cfg: Config, v: Levels, queue: seq<Deferred>, now: nat, blocks: BlockMap, start: Addr, base: nat,
                       trigger: BranchType, chain: nat)
    requires cfg.Valid()
    ensures DeferBlock(cfg, v, queue, now, blocks, Some(start), EffectiveDepth(cfg, trigger), base, trigger, chain, true) ==
            With(queue, Opener(cfg, v, blocks, start, trigger, chain, now + base + 1))
  {
  }

  lemma FollowerDeferred(cfg: Config, v: Levels, queue: seq<Deferred>, now: nat, blocks: BlockMap, start: Addr, base: nat,
                         trigger: BranchType, chain: nat)
    requires cfg.Valid()
    ensures DeferBlock(cfg, v, queue, now, blocks, Some(start), 1, base, trigger, chain, false) ==
            With(queue, Follower(cfg, blocks, start, trigger, chain, now + base + 1))
  {
  }

  // ---------------------------------------------------------------- triggers

  /** A branch that was found: its address, kind and entry, the prediction, where it was, and for how long
      the answer takes. */
  datatype Found = Found(pc: Addr, kind: BranchType, e: Entry, taken: bool, loc: Location, wait: nat) {
    predicate Call() { kind == CallDirect || kind == CallIndirect }

    predicate Indirect() { kind == CallIndirect || kind == IndirectCond || kind == IndirectUncond }

    /** The branch was seen to go both ways. */
    predicate BothWays() { e.pfTarget && e.pfThrough }

    predicate Backward() { e.target < pc }
  }

  /** The settings let branches found there trigger, and the branch is not an indirect one that changes targets. */
  predicate Triggers(cfg: Config, f: Found) {
    && (match f.loc
        case AtL1 => cfg.prefetchFwExitOnL1Hit
        case AtBuffer => cfg.prefetchOnPrefetchHit
        case _ => cfg.trainBitsOnLookup || cfg.trainBitsOnCommit)
    && !(cfg.newPBits && cfg.indirectAltBit && f.BothWays() && f.Indirect())
  }

  /** Behind a loop that missed L1, a branch predicted to stay on its path. */
  predicate ForwardExit(cfg: Config, g: Engine, f: Found) {
    cfg.forwardLoopExit && g.prevBackward && g.prevL1Miss && f.BothWays() && !f.taken
  }

  predicate CallReturns(cfg: Config, g: Engine, f: Found) {
    !ForwardExit(cfg, g, f) && f.loc != AtL1 && cfg.callFallthrough && f.Call()
  }

  /** Neither of the two, and not restricted to calls. */
  predicate Conditional(cfg: Config, g: Engine, f: Found) {
    && !ForwardExit(cfg, g, f) && !CallReturns(cfg, g, f) && f.loc != AtL1
    && f.BothWays() && (f.Call() || !cfg.onlyCall)
  }

  predicate LoopExit(cfg: Config, g: Engine, f: Found) {
    Conditional(cfg, g, f) && cfg.backwardLoopExit && f.Backward() && f.taken
  }

  predicate Alternative(cfg: Config, g: Engine, f: Found) {
    Conditional(cfg, g, f) && cfg.allConditional && (f.Call() || !cfg.onlyCallAndBackward || f.Backward())
  }

  /** The two-bit policy: one successor, or none. */
  ghost predicate TwoBitPolicy(cfg: Config, v: Levels, g: Engine, queue': seq<Deferred>, blocks: BlockMap, f: Found, time: nat)
    requires cfg.Valid()
  {
    var target := Opener(cfg, v, blocks, f.e.target, f.kind, g.nextChain, time);
    var through := Opener(cfg, v, blocks, f.pc + cfg.minInstSize, f.kind, g.nextChain, time);
    && (ForwardExit(cfg, g, f) ==> queue' == With(g.queue, target))
    && (CallReturns(cfg, g, f) ==> queue' == With(g.queue, through))
    && (LoopExit(cfg, g, f) ==> queue' == With(g.queue, through))
    && (Alternative(cfg, g, f) ==> queue' == With(g.queue, if f.taken then through else target))
    && (!ForwardExit(cfg, g, f) && !CallReturns(cfg, g, f) && !LoopExit(cfg, g, f) && !Alternative(cfg, g, f) ==>
          queue' == g.queue)
  }

  /** The plain policy: every successor that was trained, the second a cycle later. */
  ghost predicate TrainedPolicy(cfg: Config, v: Levels, g: Engine, queue': seq<Deferred>, blocks: BlockMap, f: Found, time: nat)
    requires cfg.Valid()
  {
    var target := Opener(cfg, v, blocks, f.e.target, f.kind, g.nextChain, time);
    var late := if f.e.pfTarget then time + 1 else time;
    var through := Opener(cfg, v, blocks, f.pc + cfg.minInstSize, f.kind, g.nextChain, late);
    queue' == With(With(g.queue, if f.e.pfTarget then target else None), if f.e.pfThrough then through else None)
  }

  /** What a trigger adds to the queue, issued a cycle after the answer at the earliest. */
  ghost predicate FollowsPolicy(cfg: Config, v: Levels, g: Engine, queue': seq<Deferred>, now: nat, bbMap: Option<BlockMap>,
                                f: Found)
    requires cfg.Valid()
  {
    if bbMap.None? || !Triggers(cfg, f) then queue' == g.queue
    else if cfg.newPBits then TwoBitPolicy(cfg, v, g, queue', bbMap.value, f, now + f.wait + 1)
    else TrainedPolicy(cfg, v, g, queue', bbMap.value, f, now + f.wait + 1)
  }

  predicate ChangesTargets(cfg: Config, f: Found) {
    cfg.newPBits && cfg.indirectAltBit && f.BothWays() && f.Indirect()
  }

  /** What the next trigger remembers of this one. */
  predicate Remembers(cfg: Config, g: Engine, g': Engine, bbMap: Option<BlockMap>, f: Found) {
    && g'.chains == g.chains && g'.demand == g.demand && g'.issued == g.issued
    && if bbMap.None? || ChangesTargets(cfg, f)
       then g'.prevBackward == g.prevBackward && g'.prevL1Miss == g.prevL1Miss
       else g'.prevBackward == (f.e.target < f.pc) && g'.prevL1Miss == (f.loc != AtL1)
  }

  // The policy as a choice of successors.

  function Pick(cfg: Config, g: Engine, f: Found): (bool, bool) {
    ApplyNewPBits(cfg, g.prevBackward && g.prevL1Miss, f.kind, f.taken, f.e.target < f.pc, f.e.pfTarget, f.e.pfThrough, f.loc)
  }

  lemma PickSilent(cfg: Config, g: Engine, f: Found)
    requires !Triggers(cfg, f) && !ChangesTargets(cfg, f)
    ensures !Pick(cfg, g, f).0 && !Pick(cfg, g, f).1
  {
  }

  lemma PickTrained(cfg: Config, g: Engine, f: Found)
    requires Triggers(cfg, f) && !cfg.newPBits
    ensures Pick(cfg, g, f).0 == f.e.pfTarget && Pick(cfg, g, f).1 == f.e.pfThrough
  {
  }

  lemma PickExit(cfg: Config, g: Engine, f: Found)
    requires Triggers(cfg, f) && cfg.newPBits && ForwardExit(cfg, g, f)
    ensures Pick(cfg, g, f).0 && !Pick(cfg, g, f).1
  {
  }

  lemma PickThrough(cfg: Config, g: Engine, f: Found)
    requires Triggers(cfg, f) && cfg.newPBits && (CallReturns(cfg, g, f) || LoopExit(cfg, g, f))
    ensures !Pick(cfg, g, f).0 && Pick(cfg, g, f).1
  {
  }

  lemma PickAlternative(cfg: Config, g: Engine, f: Found)
    requires Triggers(cfg, f) && cfg.newPBits && Alternative(cfg, g, f)
    ensures Pick(cfg, g, f).0 == !f.taken && Pick(cfg, g, f).1 == f.taken
  {
  }

  lemma PickNone(cfg: Config, g: Engine, f: Found)
    requires Triggers(cfg, f) && cfg.newPBits && !ForwardExit(cfg, g, f) && !CallReturns(cfg, g, f)
    requires !LoopExit(cfg, g, f) && !Alternative(cfg, g, f)
    ensures !Pick(cfg, g, f).0 && !Pick(cfg, g, f).1
  {
  }

  /** What the deferral of one successor adds, if it is picked. */
  function Picked(cfg: Config, v: Levels, blocks: BlockMap, picked: bool, start: Addr, kind: BranchType, chain: nat, time: nat):
      Option<Deferred>
    requires cfg.Valid()
  {
    if picked then Opener(cfg, v, blocks, start, kind, chain, time) else None
  }

  /** The queue when the picked successors of `f` are deferred. */
  function Chosen(cfg: Config, v: Levels, g: Engine, now: nat, blocks: BlockMap, f: Found, pick: (bool, bool)): seq<Deferred>
    requires cfg.Valid()
  {
    if !pick.0 && !pick.1 then g.queue
    else DeferPair(cfg, v, g.queue, now, blocks, When(pick.0, f.e.target), When(pick.1, f.pc + cfg.minInstSize),
                   EffectiveDepth(cfg, f.kind), f.wait, f.kind, g.nextChain, true)
  }

  lemma ChosenAdds(cfg: Config, v: Levels, g: Engine, now: nat, blocks: BlockMap, f: Found, pick: (bool, bool))
    requires cfg.Valid()
    ensures Chosen(cfg, v, g, now, blocks, f, pick) ==
            With(With(g.queue, Picked(cfg, v, blocks, pick.0, f.e.target, f.kind, g.nextChain, now + f.wait + 1)),
                 Picked(cfg, v, blocks, pick.1, f.pc + cfg.minInstSize, f.kind, g.nextChain,
                        now + f.wait + (if pick.0 then 2 else 1)))
  {
    var depth := EffectiveDepth(cfg, f.kind);
    var first := DeferBlock(cfg, v, g.queue, now, blocks, When(pick.0, f.e.target), depth, f.wait, f.kind, g.nextChain, true);
    if pick.0 {
      OpenerDeferred(cfg, v, g.queue, now, blocks, f.e.target, f.wait, f.kind, g.nextChain);
    }
    if pick.1 {
      OpenerDeferred(cfg, v, first, now, blocks, f.pc + cfg.minInstSize, if pick.0 then f.wait + 1 else f.wait, f.kind,
                     g.nextChain);
    }
  }

  lemma TwoBitFollows(cfg: Config, v: Levels, g: Engine, now: nat, blocks: BlockMap, f: Found)
    requires cfg.Valid() && Triggers(cfg, f) && cfg.newPBits
    ensures TwoBitPolicy(cfg, v, g, Chosen(cfg, v, g, now, blocks, f, Pick(cfg, g, f)), blocks, f, now + f.wait + 1)
  {
    ChosenAdds(cfg, v, g, now, blocks, f, Pick(cfg, g, f));
    if ForwardExit(cfg, g, f) {
      PickExit(cfg, g, f);
    } else if CallReturns(cfg, g, f) || LoopExit(cfg, g, f) {
      PickThrough(cfg, g, f);
    } else if Alternative(cfg, g, f) {
      PickAlternative(cfg, g, f);
    } else {
      PickNone(cfg, g, f);
    }
  }

  lemma TrainedFollows(cfg: Config, v: Levels, g: Engine, now: nat, blocks: BlockMap, f: Found)
    requires cfg.Valid() && Triggers(cfg, f) && !cfg.newPBits
    ensures TrainedPolicy(cfg, v, g, Chosen(cfg, v, g, now, blocks, f, Pick(cfg, g, f)), blocks, f, now + f.wait + 1)
  {
    ChosenAdds(cfg, v, g, now, blocks, f, Pick(cfg, g, f));
    PickTrained(cfg, g, f);
  }

  /** A trigger is the deferral of what was picked. */
  lemma TriggerIs(cfg: Config, v: Levels, g: Engine, now: nat, bbMap: Option<BlockMap>, f: Found)
    requires cfg.Valid()
    ensures var g' := Trigger(cfg, v, g, now, bbMap, f.pc, f.kind, f.e, f.taken, f.loc, f.wait, f.loc != AtL1);
            && Remembers(cfg, g, g', bbMap, f)
            && g'.queue == if bbMap.None? || ChangesTargets(cfg, f) then g.queue
                           else Chosen(cfg, v, g, now, bbMap.value, f, Pick(cfg, g, f))
  {
  }

  /** A trigger follows the policy. */
  lemma TriggerFollowsPolicy(cfg: Config, v: Levels, g: Engine, now: nat, bbMap: Option<BlockMap>, f: Found)
    requires cfg.Valid()
    ensures var g' := Trigger(cfg, v, g, now, bbMap, f.pc, f.kind, f.e, f.taken, f.loc, f.wait, f.loc != AtL1);
            FollowsPolicy(cfg, v, g, g'.queue, now, bbMap, f) && Remembers(cfg, g, g', bbMap, f)
  {
    TriggerIs(cfg, v, g, now, bbMap, f);
    if bbMap.Some? && !ChangesTargets(cfg, f) {
      if !Triggers(cfg, f) {
        PickSilent(cfg, g, f);
      } else if cfg.newPBits {
        TwoBitFollows(cfg, v, g, now, bbMap.value, f);
      } else {
        TrainedFollows(cfg, v, g, now, bbMap.value, f);
      }
    }
  }

  // ---------------------------------------------------------------- lookups

  /** What is found of a branch: in the first of L1, buffer, L2 and L3 that has it. A copy still in flight
      has to be waited for; hits in L1 and in the buffer go by the base prediction. */
  ghost function FoundIn(cfg: Config, v: Levels, now: nat, op: Op): Option<Found>
    requires cfg.Valid() && op.LookupOp?
  {
    var k1, kp, k2, k3 := cfg.Key1(op.pc), cfg.KeyP(op.pc), cfg.Key2(op.pc), cfg.Key3(op.pc);
    if k1 in v.l1 then Some(Found(op.pc, op.kind, v.l1[k1], op.basePrediction, AtL1, 0))
    else if kp in v.pb && (cfg.limitedMarkov || cfg.trainBitsOnLookup || cfg.trainBitsOnCommit) then
      Some(Found(op.pc, op.kind, v.pb[kp], op.basePrediction, AtBuffer,
                 if !cfg.noPrefetchLatency && v.pb[kp].readyAt > now then v.pb[kp].readyAt - now else 0))
    else if k2 in v.l2 then Some(Found(op.pc, op.kind, v.l2[k2], op.taken, AtL2, cfg.l2Latency))
    else if k3 in v.l3 && cfg.enableL3 then Some(Found(op.pc, op.kind, v.l3[k3], op.taken, AtL3, cfg.l3Latency))
    else None
  }

  lemma {:induction false} MarkovKeepsBelow(cfg: Config, v: Levels, now: nat, table: MarkovTable, pc: Addr, base: nat, depth: nat,
                                            victims: seq<Option<Key>>)
    requires cfg.Valid()
    ensures MarkovFill(cfg, v, now, table, pc, base, depth, victims).l2 == v.l2
    ensures MarkovFill(cfg, v, now, table, pc, base, depth, victims).l3 == v.l3
    decreases depth
  {
    var hop := HopMarkov(cfg, v, now, table, pc, base, NextVictim(victims));
    if hop.Hop? && depth > 2 {
      MarkovKeepsBelow(cfg, hop.levels, now, table, hop.pc, hop.charged, depth - 1, LaterVictims(victims));
    }
  }

  /** The policy looks at the levels below and at the queue, the next chain and what is remembered. */
  lemma SamePolicy(cfg: Config, v: Levels, v': Levels, g: Engine, h: Engine, queue': seq<Deferred>, now: nat,
                   bbMap: Option<BlockMap>, f: Found)
    requires cfg.Valid() && v.l2 == v'.l2 && v.l3 == v'.l3 && FollowsPolicy(cfg, v, g, queue', now, bbMap, f)
    requires h == g.(demand := h.demand)
    ensures FollowsPolicy(cfg, v', h, queue', now, bbMap, f)
  {
    if bbMap.Some? {
      forall start, time ensures Opener(cfg, v, bbMap.value, start, f.kind, g.nextChain, time) ==
                                 Opener(cfg, v', bbMap.value, start, f.kind, g.nextChain, time) {
      }
    }
  }

  /** The engine after a lookup: the branch counts as demanded, and what was found triggers by the policy. */
  ghost predicate LookedUp(cfg: Config, s: State, op: Op, s': State)
    requires cfg.Valid() && op.LookupOp?
  {
    var v := TrainOnLookup(cfg, s, op.blockStart);
    var f := FoundIn(cfg, v, s.now, op);
    && s'.engine.demand == s.engine.demand + {op.pc} && s'.now == s.now
    && if f.None? || LookupAnswer(cfg, v, s.now, op.pc) == Threw
       then s'.engine == s.engine.(demand := s.engine.demand + {op.pc})
       else FollowsPolicy(cfg, s'.levels, s.engine, s'.engine.queue, s.now, op.bbMap, f.value)
  }

  lemma FoundIsHit(cfg: Config, v: Levels, now: nat, op: Op)
    requires cfg.Valid() && op.LookupOp?
    ensures var hit, f := FirstHit(cfg, v, op.pc), FoundIn(cfg, v, now, op);
            && (hit == Nowhere <==> f.None?)
            && (f.Some? ==>
                  && f.value.pc == op.pc && f.value.kind == op.kind && f.value.e == HitEntry(cfg, v, op.pc)
                  && f.value.loc == TriggerAt(hit) && f.value.wait == TriggerBase(cfg, hit, f.value.e, now)
                  && f.value.taken == (if hit == InL1 || hit == InBuffer then op.basePrediction else op.taken))
  {
  }

  lemma NotFoundOrThrew(cfg: Config, s: State, op: Op)
    requires cfg.Valid() && op.LookupOp?
    requires var v := TrainOnLookup(cfg, s, op.blockStart);
             FirstHit(cfg, v, op.pc) == Nowhere || LookupAnswer(cfg, v, s.now, op.pc) == Threw
    ensures Lookup(cfg, s, op).engine == s.engine.(demand := s.engine.demand + {op.pc}) && Lookup(cfg, s, op).now == s.now
  {
  }

  /** A lookup that answers triggers from what it found. */
  lemma LookupTriggers(cfg: Config, s: State, op: Op, f: Found)
    requires cfg.Valid() && op.LookupOp?
    requires var v := TrainOnLookup(cfg, s, op.blockStart);
             FoundIn(cfg, v, s.now, op) == Some(f) && LookupAnswer(cfg, v, s.now, op.pc) != Threw
    ensures var moved := Promote(cfg, TrainOnLookup(cfg, s, op.blockStart), op.pc, op.w);
            && Lookup(cfg, s, op).now == s.now
            && Lookup(cfg, s, op).engine ==
               Trigger(cfg, moved, s.engine.(demand := s.engine.demand + {op.pc}), s.now, op.bbMap, f.pc, f.kind, f.e, f.taken,
                       f.loc, f.wait, f.loc != AtL1)
            && Lookup(cfg, s, op).levels.l2 == moved.l2 && Lookup(cfg, s, op).levels.l3 == moved.l3
  {
    var v := TrainOnLookup(cfg, s, op.blockStart);
    FoundIsHit(cfg, v, s.now, op);
    MarkovKeepsBelow(cfg, Promote(cfg, v, op.pc, op.w), s.now, op.markov, op.pc, f.wait, cfg.prefetchDepth, op.fills);
  }

  /** Every lookup follows the policy. */
  lemma LookupFollowsPolicy(cfg: Config, s: State, op: Op)
    requires cfg.Valid() && op.LookupOp?
    ensures LookedUp(cfg, s, op, Lookup(cfg, s, op))
  {
    var v := TrainOnLookup(cfg, s, op.blockStart);
    FoundIsHit(cfg, v, s.now, op);
    var found := FoundIn(cfg, v, s.now, op);
    if found.None? || LookupAnswer(cfg, v, s.now, op.pc) == Threw {
      NotFoundOrThrew(cfg, s, op);
    } else {
      var moved, g := Promote(cfg, v, op.pc, op.w), s.engine.(demand := s.engine.demand + {op.pc});
      LookupTriggers(cfg, s, op, found.value);
      TriggerFollowsPolicy(cfg, moved, g, s.now, op.bbMap, found.value);
      SamePolicy(cfg, moved, Lookup(cfg, s, op).levels, g, s.engine, Lookup(cfg, s, op).engine.queue, s.now, op.bbMap,
                 found.value);
    }
  }

  // ---------------------------------------------------------------- due prefetches

  /** A due entry is still wanted: its chain has budget or may open one, the branch was not looked up this
      cycle, is neither in L1 nor in the buffer, and a level below has it. */
  ghost predicate StillWanted(cfg: Config, s: State, d: Deferred)
    requires cfg.Valid() && |s.engine.chains| == cfg.maxChains
  {
    && (cfg.maxChains > 0 && d.chainId > 0 ==>
          var slot := s.engine.chains[d.chainId % cfg.maxChains];
          if slot.id == d.chainId then slot.remaining > 0 else d.allocate)
    && d.pc !in s.engine.demand && cfg.Key1(d.pc) !in s.levels.l1 && cfg.KeyP(d.pc) !in s.levels.pb
    && Below(cfg, s.levels, d.pc)
  }

  /** The entry that a prefetch copies: the one of L2, else that of L3. */
  ghost function Copied(cfg: Config, v: Levels, pc: Addr): Entry
    requires cfg.Valid() && Below(cfg, v, pc)
  {
    if cfg.Key2(pc) in v.l2 then v.l2[cfg.Key2(pc)] else v.l3[cfg.Key3(pc)]
  }

  /** The copy in the buffer: as it is below, and there as long after its issue time as the level takes. */
  ghost predicate IsCopy(cfg: Config, v: Levels, d: Deferred, copy: Entry)
    requires cfg.Valid() && Below(cfg, v, d.pc)
  {
    var e, fromL2 := Copied(cfg, v, d.pc), cfg.Key2(d.pc) in v.l2;
    && copy.branchAddr == d.pc && copy.target == e.target && copy.kind == e.kind && copy.dir == e.dir
    && copy.pfTarget == e.pfTarget && copy.pfThrough == e.pfThrough
    && copy.readyAt == d.issueTime + (if fromL2 then cfg.l2Latency else cfg.l3Latency)
    && copy.origin == ByFerret(!fromL2, d.issueTime)
  }

  /** What the chain of `d` may issue, `d` included: its slot's budget, or that of a slot it opens now. */
  ghost function Allowed(cfg: Config, chains: seq<Chain>, d: Deferred): nat
    requires |chains| == cfg.maxChains && cfg.maxChains > 0
  {
    var slot := chains[d.chainId % cfg.maxChains];
    if d.allocate && slot.id != d.chainId then d.depth else slot.remaining
  }

  /** The followers of `d`: the trained successors of its branch, once the copy is there. */
  ghost predicate Followed(cfg: Config, s: State, queue': seq<Deferred>, blocks: BlockMap, d: Deferred)
    requires cfg.Valid() && Below(cfg, s.levels, d.pc)
  {
    var e := Copied(cfg, s.levels, d.pc);
    var arrival := d.issueTime + (if cfg.Key2(d.pc) in s.levels.l2 then cfg.l2Latency else cfg.l3Latency);
    var time := (if arrival > s.now then arrival else s.now) + 1;
    var target := Follower(cfg, blocks, e.target, e.kind, d.chainId, time);
    var through := Follower(cfg, blocks, d.pc + cfg.minInstSize, e.kind, d.chainId, if e.pfTarget then time + 1 else time);
    if cfg.indirectAltBit && e.pfTarget && e.pfThrough && (e.kind == CallIndirect || e.kind == IndirectCond || e.kind == IndirectUncond)
    then queue' == s.engine.queue
    else queue' == With(With(s.engine.queue, if e.pfTarget then target else None), if e.pfThrough then through else None)
  }

  lemma FollowersDeferred(cfg: Config, v: Levels, queue: seq<Deferred>, now: nat, blocks: BlockMap, e: Entry, through: Addr,
                          base: nat, chain: nat)
    requires cfg.Valid()
    ensures DeferPair(cfg, v, queue, now, blocks, When(e.pfTarget, e.target), When(e.pfThrough, through), 1, base, e.kind,
                      chain, false) ==
            With(With(queue, if e.pfTarget then Follower(cfg, blocks, e.target, e.kind, chain, now + base + 1) else None),
                 if e.pfThrough
                 then Follower(cfg, blocks, through, e.kind, chain, now + base + (if e.pfTarget then 2 else 1)) else None)
  {
    var first := DeferBlock(cfg, v, queue, now, blocks, When(e.pfTarget, e.target), 1, base, e.kind, chain, false);
    if e.pfTarget {
      FollowerDeferred(cfg, v, queue, now, blocks, e.target, base, e.kind, chain);
    }
    if e.pfThrough {
      FollowerDeferred(cfg, v, first, now, blocks, through, if e.pfTarget then base + 1 else base, e.kind, chain);
    }
  }

  lemma FollowAdds(cfg: Config, s: State, issued: State, blocks: BlockMap, d: Deferred)
    requires cfg.Valid() && Below(cfg, s.levels, d.pc) && issued.engine.queue == s.engine.queue && issued.now == s.now
    ensures var e := Copied(cfg, s.levels, d.pc);
            var arrival := d.issueTime + (if cfg.Key2(d.pc) in s.levels.l2 then cfg.l2Latency else cfg.l3Latency);
            Followed(cfg, s, Follow(cfg, issued, blocks, d, e, arrival).queue, blocks, d)
  {
    var e := Copied(cfg, s.levels, d.pc);
    var arrival := d.issueTime + (if cfg.Key2(d.pc) in s.levels.l2 then cfg.l2Latency else cfg.l3Latency);
    FollowersDeferred(cfg, issued.levels, s.engine.queue, s.now, blocks, e, d.pc + cfg.minInstSize,
                      if arrival > s.now then arrival - s.now else 0, d.chainId);
  }

  /** What issuing the prefetch of `d` does to everything but the queue. */
  ghost predicate IssuedRight(cfg: Config, s: State, s': State, d: Deferred, victim: Option<Key>)
    requires cfg.Valid() && |s.engine.chains| == cfg.maxChains && |s'.engine.chains| == cfg.maxChains
    requires Below(cfg, s.levels, d.pc)
  {
    var k := cfg.KeyP(d.pc);
    && s'.levels.l1 == s.levels.l1 && s'.levels.l2 == s.levels.l2 && s'.levels.l3 == s.levels.l3
    && k in s'.levels.pb && IsCopy(cfg, s.levels, d, s'.levels.pb[k])
    && s'.levels.pb == Drop(s.levels.pb, victim)[k := s'.levels.pb[k]]
    && s'.engine.issued == s.engine.issued + [d.chainId] && s'.engine.demand == s.engine.demand && s'.now == s.now
    && (cfg.maxChains > 0 ==> Paid(cfg, s.engine.chains, s'.engine.chains, d))
  }

  /** What processing a due entry does. */
  ghost predicate Processed(cfg: Config, s: State, s': State, blocks: BlockMap, d: Deferred, victim: Option<Key>)
    requires cfg.Valid() && |s.engine.chains| == cfg.maxChains && |s'.engine.chains| == cfg.maxChains
  {
    if !StillWanted(cfg, s, d) then s' == s
    else
      && IssuedRight(cfg, s, s', d, victim)
      && if cfg.maxChains > 0 && Allowed(cfg, s.engine.chains, d) >= 2 then Followed(cfg, s, s'.engine.queue, blocks, d)
         else s'.engine.queue == s.engine.queue
  }

  /** The chain of `d` has its slot, with one prefetch less; the other slots are as they were. */
  ghost predicate Paid(cfg: Config, chains: seq<Chain>, chains': seq<Chain>, d: Deferred)
    requires |chains| == |chains'| == cfg.maxChains && cfg.maxChains > 0
  {
    var i, left := d.chainId % cfg.maxChains, Allowed(cfg, chains, d);
    && chains'[i] == Chain(if d.allocate then d.chainId else chains[i].id, if left > 0 then left - 1 else 0)
    && forall j | 0 <= j < cfg.maxChains && j != i :: chains'[j] == chains[j]
  }

  lemma SpendPays(cfg: Config, chains: seq<Chain>, d: Deferred)
    requires |chains| == cfg.maxChains && cfg.maxChains > 0
    ensures Paid(cfg, chains, Spend(cfg, chains, d), d)
    ensures Continues(cfg, chains, d) <==> Allowed(cfg, chains, d) >= 2
  {
  }

  lemma IssuesIffWanted(cfg: Config, s: State, d: Deferred)
    requires cfg.Valid() && |s.engine.chains| == cfg.maxChains
    ensures Issues(cfg, s, d) <==> StillWanted(cfg, s, d)
    ensures StillWanted(cfg, s, d) ==>
              PrefetchSource(cfg, s.levels, d.pc) ==
              Source(Copied(cfg, s.levels, d.pc), if cfg.Key2(d.pc) in s.levels.l2 then cfg.l2Latency else cfg.l3Latency,
                     cfg.Key2(d.pc) !in s.levels.l2)
  {
  }

  lemma IssueIsRight(cfg: Config, s: State, d: Deferred, victim: Option<Key>)
    requires cfg.Valid() && |s.engine.chains| == cfg.maxChains && Issues(cfg, s, d) && StillWanted(cfg, s, d)
    ensures IssuedRight(cfg, s, Issue(cfg, s, d, victim), d, victim)
    ensures Issue(cfg, s, d, victim).engine.queue == s.engine.queue
  {
    IssuesIffWanted(cfg, s, d);
    if cfg.maxChains > 0 {
      SpendPays(cfg, s.engine.chains, d);
    }
  }

  lemma OnlyQueue(cfg: Config, s: State, issued: State, s': State, d: Deferred, victim: Option<Key>)
    requires cfg.Valid() && |s.engine.chains| == cfg.maxChains && |issued.engine.chains| == cfg.maxChains
    requires Below(cfg, s.levels, d.pc) && IssuedRight(cfg, s, issued, d, victim)
    requires s' == issued.(engine := issued.engine.(queue := s'.engine.queue))
    ensures IssuedRight(cfg, s, s', d, victim)
  {
  }

  lemma ProcessIsIssue(cfg: Config, s: State, blocks: BlockMap, d: Deferred, victim: Option<Key>)
    requires cfg.Valid() && |s.engine.chains| == cfg.maxChains && Issues(cfg, s, d)
    ensures var s', issued := ProcessOne(cfg, s, blocks, d, victim), Issue(cfg, s, d, victim);
            var source := PrefetchSource(cfg, s.levels, d.pc);
            && s' == issued.(engine := issued.engine.(queue := s'.engine.queue))
            && s'.engine.queue == if Continues(cfg, s.engine.chains, d)
                                  then Follow(cfg, issued, blocks, d, source.entry, d.issueTime + source.latency).queue
                                  else issued.engine.queue
  {
  }

  /** Every due entry is processed so. */
  lemma ProcessOneDoes(cfg: Config, s: State, blocks: BlockMap, d: Deferred, victim: Option<Key>)
    requires cfg.Valid() && |s.engine.chains| == cfg.maxChains
    ensures Processed(cfg, s, ProcessOne(cfg, s, blocks, d, victim), blocks, d, victim)
  {
    IssuesIffWanted(cfg, s, d);
    if StillWanted(cfg, s, d) {
      var issued := Issue(cfg, s, d, victim);
      IssueIsRight(cfg, s, d, victim);
      ProcessIsIssue(cfg, s, blocks, d, victim);
      OnlyQueue(cfg, s, issued, ProcessOne(cfg, s, blocks, d, victim), d, victim);
      if cfg.maxChains > 0 {
        SpendPays(cfg, s.engine.chains, d);
      }
      FollowAdds(cfg, s, issued, blocks, d);
    }
  }
}
