/**
 The multi-level branch target buffer with the BTB-Ferret prefetcher
 (gem5/src/cpu/pred/multilevel_btb.cc), as pure functions on its state.

 A level is the contents of one associative cache, keyed by the (set, tag) pair an address
 selects; see AssociativeCache for the array it abstracts. Replacement policies are arbitrary:
 every operation takes the victims as an argument.
 */
module BtbModel {
  import opened Wrappers
  import opened AssociativeCache

  type Addr = nat

  datatype BranchType =
    | NoBranch | Return | CallDirect | CallIndirect
    | DirectCond | DirectUncond | IndirectCond | IndirectUncond

  predicate IsCall(t: BranchType) {
    t == CallDirect || t == CallIndirect
  }

  predicate IsIndirect(t: BranchType) {
    t == CallIndirect || t == IndirectUncond || t == IndirectCond
  }

  /** How a buffered copy came about: by the chain prefetcher, from L2 or L3, with its issue time, or by
      the Markov prefetcher in cycle `at`, charged `extra` cycles more than the latency of L2. */
  datatype Origin = NoPrefetch | ByFerret(fromL3: bool, issued: nat) | ByMarkov(at: nat, extra: nat)

  datatype Entry = Entry(branchAddr: Addr, target: Addr, kind: BranchType, pfTarget: bool, pfThrough: bool,
                         dir: nat, readyAt: nat, origin: Origin)

  type Level = map<Key, Entry>

  datatype Levels = Levels(l1: Level, pb: Level, l2: Level, l3: Level)

  /** A prefetch waiting for its issue time. */
  datatype Deferred = Deferred(pc: Addr, issueTime: nat, trigger: BranchType, chainId: nat,
                               allocate: bool, depth: nat)

  /** A slot of the chain tracker; id 0 means unused. */
  datatype Chain = Chain(id: nat, remaining: nat)

  /** The prefetch engine. `issued` records the chain of every prefetch issued so far. */
  datatype Engine = Engine(queue: seq<Deferred>, chains: seq<Chain>, nextChain: nat, demand: set<Addr>,
                           prevBackward: bool, prevL1Miss: bool, issued: seq<nat>)

  datatype PrevBlock = PrevBlock(branchPC: Addr, target: Addr, fallThrough: Addr)

  datatype State = State(levels: Levels, engine: Engine, prevBlock: Option<PrevBlock>, now: nat)

  /** Parameters; g1, gp, g2 and g3 are the arrays of L1, the prefetch buffer, L2 and L3. */
  datatype Config = Config(
    instSize: nat, minInstSize: nat,
    g1: Geometry, gp: Geometry, g2: Geometry, g3: Geometry,
    l1Latency: nat, l2Latency: nat, l3Latency: nat,
    enableL3: bool, nonexclusive: bool,
    trainBitsOnLookup: bool, trainBitsOnCommit: bool, limitedMarkov: bool,
    prefetchOnPrefetchHit: bool, cleanBitsOnL1Promotion: bool, noPrefetchLatency: bool,
    prefetchDepth: nat, maxChains: nat, depthOnlyCall: bool, limitRet: bool,
    newPBits: bool, onlyCall: bool, onlyCallAndBackward: bool, callFallthrough: bool,
    forwardLoopExit: bool, backwardLoopExit: bool, allConditional: bool,
    prefetchFwExitOnL1Hit: bool, indirectAltBit: bool)
  {
    predicate Valid() {
      instSize > 0 && g1.Valid() && gp.Valid() && g2.Valid() && g3.Valid()
    }

    predicate UsesBits() {
      trainBitsOnLookup || trainBitsOnCommit
    }

    predicate LooksInBuffer() {
      limitedMarkov || UsesBits()
    }

    /** The key an address selects in an array. */
    function KeyIn(g: Geometry, pc: Addr): Key
      requires instSize > 0 && g.Valid()
    {
      g.KeyOf(pc / instSize)
    }

    function Key1(pc: Addr): Key requires Valid() { KeyIn(g1, pc) }
    function KeyP(pc: Addr): Key requires Valid() { KeyIn(gp, pc) }
    function Key2(pc: Addr): Key requires Valid() { KeyIn(g2, pc) }
    function Key3(pc: Addr): Key requires Valid() { KeyIn(g3, pc) }
  }

  // ---------------------------------------------------------------- entries and levels

  /** A freshly inserted entry, before its target is written. */
  function Blank(pc: Addr): Entry {
    Entry(pc, 0, NoBranch, false, false, 1, 0, NoPrefetch)
  }

  /** Copying the content of `e` over an entry; the fall-through bit accumulates. */
  function Merge(into: Entry, e: Entry): Entry {
    into.(branchAddr := e.branchAddr, target := e.target, kind := e.kind,
          pfThrough := into.pfThrough || e.pfThrough, pfTarget := e.pfTarget, dir := e.dir)
  }

  /** Writing `e` back to a level under `key`, replacing `victim` if it was not there. */
  function WriteBack(level: Level, key: Key, victim: Option<Key>, e: Entry): Level {
    if key in level then level[key := Merge(level[key], e)]
    else Drop(level, victim)[key := Merge(Blank(e.branchAddr), e)]
  }

  /** The ways picked by the replacement policies; None is an invalid way. */
  datatype Victims = Victims(l1: Option<Key>, l2: Option<Key>, l3: Option<Key>, l3Mirror: Option<Key>)

  /** A valid victim of L2 leaves for L3, or for good when there is none. */
  function SpillL2(cfg: Config, v: Levels, victim: Option<Key>, l3Victim: Option<Key>): Levels
    requires cfg.Valid()
  {
    if victim.None? || victim.value !in v.l2 then v else
    var e := v.l2[victim.value];
    v.(l2 := v.l2 - {victim.value},
       l3 := if cfg.enableL3 then WriteBack(v.l3, cfg.Key3(e.branchAddr), l3Victim, e) else v.l3)
  }

  /** The victim of L1 moves to L2. */
  function DemoteL1(cfg: Config, v: Levels, k: Key, w: Victims): Levels
    requires cfg.Valid() && k in v.l1
  {
    var k2 := cfg.Key2(v.l1[k].branchAddr);
    var room := if k2 in v.l2 then v else SpillL2(cfg, v, w.l2, w.l3);
    room.(l1 := v.l1 - {k}, l2 := WriteBack(room.l2, k2, None, v.l1[k]))
  }

  /** In the non-exclusive hierarchy the victim of L1 is copied to L3 as well. */
  function MirrorToL3(cfg: Config, v: Levels, e: Entry, victim: Option<Key>): Levels
    requires cfg.Valid()
  {
    if cfg.nonexclusive && cfg.enableL3
    then v.(l3 := WriteBack(v.l3, cfg.Key3(e.branchAddr), victim, e)) else v
  }

  /** Making room in L1. */
  function FreeUpL1(cfg: Config, v: Levels, w: Victims): Levels
    requires cfg.Valid()
  {
    if w.l1.None? || w.l1.value !in v.l1 then v
    else MirrorToL3(cfg, DemoteL1(cfg, v, w.l1.value, w), v.l1[w.l1.value], w.l3Mirror)
  }

  function Install(cfg: Config, v: Levels, pc: Addr, e: Entry, w: Victims): Levels
    requires cfg.Valid()
  {
    var room := FreeUpL1(cfg, v, w);
    room.(l1 := room.l1[cfg.Key1(pc) := e])
  }

  /** Committing a taken branch. */
  function Update(cfg: Config, v: Levels, pc: Addr, target: Addr, kind: BranchType, w: Victims): Levels
    requires cfg.Valid()
  {
    var k := cfg.Key1(pc);
    if k in v.l1 then
      var e := v.l1[k];
      var alt := cfg.UsesBits() && cfg.indirectAltBit && IsIndirect(kind) && e.target != target;
      v.(l1 := v.l1[k := e.(target := target, kind := kind,
                            pfTarget := e.pfTarget || alt, pfThrough := e.pfThrough || alt)])
    else
      Install(cfg, v, pc, Blank(pc).(target := target, kind := kind, pfTarget := cfg.UsesBits()), w)
  }

  function Promoted(cfg: Config, pc: Addr, e: Entry): Entry {
    var copy := Merge(Blank(pc), e);
    if cfg.cleanBitsOnL1Promotion then copy.(pfThrough := false, pfTarget := false) else copy
  }

  function PromoteFromBuffer(cfg: Config, v: Levels, pc: Addr, w: Victims): Levels
    requires cfg.Valid() && cfg.KeyP(pc) in v.pb
  {
    var k := cfg.KeyP(pc);
    var filled := Install(cfg, v, pc, Promoted(cfg, pc, v.pb[k]), w);
    filled.(pb := filled.pb - {k})
  }

  /** What is left below when a branch moves up from L2, or from L3. */
  function WithoutL2(cfg: Config, v: Levels, k: Key): Levels {
    if cfg.nonexclusive then v else v.(l2 := v.l2 - {k})
  }

  function WithoutL3(cfg: Config, v: Levels, k: Key): Levels {
    if cfg.nonexclusive then v else v.(l3 := v.l3 - {k})
  }

  function PromoteFromL2(cfg: Config, v: Levels, pc: Addr, w: Victims): Levels
    requires cfg.Valid() && cfg.Key2(pc) in v.l2
  {
    Install(cfg, WithoutL2(cfg, v, cfg.Key2(pc)), pc, Promoted(cfg, pc, v.l2[cfg.Key2(pc)]), w)
  }

  function PromoteFromL3(cfg: Config, v: Levels, pc: Addr, w: Victims): Levels
    requires cfg.Valid() && cfg.Key3(pc) in v.l3
  {
    Install(cfg, WithoutL3(cfg, v, cfg.Key3(pc)), pc, Merge(Blank(pc), v.l3[cfg.Key3(pc)]), w)
  }

  /** Inserting a prefetched copy into the prefetch buffer. */
  function FillBuffer(cfg: Config, v: Levels, pc: Addr, e: Entry, arrival: nat, origin: Origin,
                      victim: Option<Key>): Levels
    requires cfg.Valid()
  {
    v.(pb := Drop(v.pb, victim)[cfg.KeyP(pc) :=
         Blank(pc).(target := e.target, kind := e.kind, dir := e.dir, readyAt := arrival, origin := origin,
                    pfTarget := e.pfTarget, pfThrough := e.pfThrough)])
  }

  // ---------------------------------------------------------------- lookup

  datatype HitLevel = InL1 | InBuffer | InL2 | InL3 | Nowhere

  function FirstHit(cfg: Config, v: Levels, pc: Addr): HitLevel
    requires cfg.Valid()
  {
    if cfg.Key1(pc) in v.l1 then InL1
    else if cfg.LooksInBuffer() && cfg.KeyP(pc) in v.pb then InBuffer
    else if cfg.Key2(pc) in v.l2 then InL2
    else if cfg.enableL3 && cfg.Key3(pc) in v.l3 then InL3
    else Nowhere
  }

  /** The quick check callers make before a lookup. */
  predicate ValidBranch(cfg: Config, v: Levels, pc: Addr)
    requires cfg.Valid()
  {
    || cfg.Key1(pc) in v.l1
    || cfg.KeyP(pc) in v.pb
    || cfg.Key2(pc) in v.l2
    || (cfg.enableL3 && cfg.Key3(pc) in v.l3)
  }

  function HitEntry(cfg: Config, v: Levels, pc: Addr): Entry
    requires cfg.Valid() && FirstHit(cfg, v, pc) != Nowhere
  {
    match FirstHit(cfg, v, pc)
    case InL1 => v.l1[cfg.Key1(pc)]
    case InBuffer => v.pb[cfg.KeyP(pc)]
    case InL2 => v.l2[cfg.Key2(pc)]
    case InL3 => v.l3[cfg.Key3(pc)]
  }

  /** The levels after a lookup: whatever hits ends up in L1. */
  function Promote(cfg: Config, v: Levels, pc: Addr, w: Victims): Levels
    requires cfg.Valid()
  {
    match FirstHit(cfg, v, pc)
    case InL1 => v
    case InBuffer => PromoteFromBuffer(cfg, v, pc, w)
    case InL2 => PromoteFromL2(cfg, v, pc, w)
    case InL3 => PromoteFromL3(cfg, v, pc, w)
    case Nowhere => v
  }

  /** Cycles still missing until a prefetched copy has arrived. */
  function Remaining(cfg: Config, e: Entry, now: nat): nat {
    if !cfg.noPrefetchLatency && e.readyAt > now then e.readyAt - now else 0
  }

  function SourceLatency(cfg: Config, e: Entry): nat {
    if e.origin.ByFerret? && e.origin.fromL3 then cfg.l3Latency else cfg.l2Latency
  }

  /** What a lookup answers. `Panicked` is the lookup of an address that is in no level; `Threw`
      is the exception of a cycle subtraction below zero. */
  datatype Answer = Answer(target: Addr, latency: nat) | Panicked | Threw

  /** What a hit answers. A prefetched entry may still be on its way; when it is further away than
      its source is, the subtraction of the two throws. */
  function AnswerOf(cfg: Config, hit: HitLevel, e: Entry, now: nat): Answer
    requires hit != Nowhere
  {
    match hit
    case InL1 => Answer(e.target, cfg.l1Latency)
    case InBuffer =>
      if Remaining(cfg, e, now) > SourceLatency(cfg, e) then Threw else Answer(e.target, Remaining(cfg, e, now))
    case InL2 => Answer(e.target, cfg.l2Latency)
    case InL3 => Answer(e.target, cfg.l3Latency)
  }

  function LookupAnswer(cfg: Config, v: Levels, now: nat, pc: Addr): Answer
    requires cfg.Valid()
  {
    if FirstHit(cfg, v, pc) == Nowhere then Panicked
    else AnswerOf(cfg, FirstHit(cfg, v, pc), HitEntry(cfg, v, pc), now)
  }

  // ---------------------------------------------------------------- prefetch triggers

  datatype Location = AtL1 | AtL2 | AtL3 | AtBuffer

  /** The two-bit policy; `both` says that the branch was seen to go both ways. */
  function PickPath(cfg: Config, afterBackwardMiss: bool, kind: BranchType, taken: bool, backward: bool,
                    both: bool, loc: Location): (bool, bool)
  {
    if cfg.forwardLoopExit && afterBackwardMiss && both && !taken then (true, false)
    else if loc == AtL1 then (false, false)
    else if cfg.onlyCall && !IsCall(kind) then (false, false)
    else if cfg.onlyCallAndBackward && !IsCall(kind) && !(backward && both) then (false, false)
    else if cfg.callFallthrough && IsCall(kind) then (false, true)
    else if cfg.backwardLoopExit && backward && taken && both then (false, true)
    else if cfg.allConditional && both then (!taken, taken)
    else (false, false)
  }

  /** Which of the two successors of a branch to prefetch, given its two training bits. */
  function ApplyNewPBits(cfg: Config, afterBackwardMiss: bool, kind: BranchType, taken: bool, backward: bool,
                         pfTarget: bool, pfThrough: bool, loc: Location): (bool, bool)
  {
    if || (loc == AtL1 && !cfg.prefetchFwExitOnL1Hit)
       || ((loc == AtL2 || loc == AtL3) && !cfg.UsesBits())
       || (loc == AtBuffer && !cfg.prefetchOnPrefetchHit)
    then (false, false)
    else if !cfg.newPBits then (pfTarget, pfThrough)
    else PickPath(cfg, afterBackwardMiss, kind, taken, backward, pfTarget && pfThrough, loc)
  }

  /** Inserting by issue time, before the first entry that is not earlier. */
  function Enqueue(queue: seq<Deferred>, d: Deferred): seq<Deferred> {
    if queue == [] || queue[0].issueTime >= d.issueTime then [d] + queue
    else [queue[0]] + Enqueue(queue[1..], d)
  }

  type BlockMap = map<Addr, Addr>

  /** Deferring the prefetch of the branch that ends the block starting at `start`, if there is one. */
  function DeferBlock(cfg: Config, v: Levels, queue: seq<Deferred>, now: nat, blocks: BlockMap, start: Option<Addr>,
                      depth: nat, base: nat, trigger: BranchType, chainId: nat, allocate: bool): seq<Deferred>
    requires cfg.Valid()
  {
    if start.None? || start.value !in blocks then queue else
    var pc := blocks[start.value];
    if !(cfg.Key2(pc) in v.l2 || (cfg.enableL3 && cfg.Key3(pc) in v.l3)) && allocate then queue
    else if cfg.limitRet && trigger == Return then queue
    else Enqueue(queue, Deferred(pc, now + base + 1, trigger, chainId, allocate, depth))
  }

  /** Deferring the taken successor and the fall-through successor; the second waits a cycle for the first. */
  function DeferPair(cfg: Config, v: Levels, queue: seq<Deferred>, now: nat, blocks: BlockMap,
                     target: Option<Addr>, through: Option<Addr>,
                     depth: nat, base: nat, trigger: BranchType, chainId: nat, allocate: bool): seq<Deferred>
    requires cfg.Valid()
  {
    DeferBlock(cfg, v, DeferBlock(cfg, v, queue, now, blocks, target, depth, base, trigger, chainId, allocate),
               now, blocks, through, depth, if target.Some? then base + 1 else base, trigger, chainId, allocate)
  }

  function EffectiveDepth(cfg: Config, kind: BranchType): nat {
    if cfg.depthOnlyCall && !IsCall(kind) then 1 else cfg.prefetchDepth
  }

  function When(picked: bool, start: Addr): Option<Addr> {
    if picked then Some(start) else None
  }

  /** A new chain along the picked successors, if any. */
  function FollowPath(cfg: Config, v: Levels, g: Engine, now: nat, blocks: BlockMap, kind: BranchType,
                      target: Addr, through: Addr, pick: (bool, bool), base: nat): Engine
    requires cfg.Valid()
  {
    if !pick.0 && !pick.1 then g else
    g.(nextChain := g.nextChain + 1,
       queue := DeferPair(cfg, v, g.queue, now, blocks, When(pick.0, target), When(pick.1, through),
                          EffectiveDepth(cfg, kind), base, kind, g.nextChain, true))
  }

  /** Starting a prefetch chain from the branch that was just looked up. */
  function Trigger(cfg: Config, v: Levels, g: Engine, now: nat, bbMap: Option<BlockMap>, pc: Addr, kind: BranchType,
                   e: Entry, taken: bool, loc: Location, base: nat, l1Miss: bool): Engine
    requires cfg.Valid()
  {
    if bbMap.None? then g
    else if cfg.indirectAltBit && cfg.newPBits && e.pfTarget && e.pfThrough && IsIndirect(kind) then g
    else
      var backward := e.target < pc;
      FollowPath(cfg, v, g.(prevBackward := backward, prevL1Miss := l1Miss), now, bbMap.value, kind, e.target,
                 pc + cfg.minInstSize,
                 ApplyNewPBits(cfg, g.prevBackward && g.prevL1Miss, kind, taken, backward, e.pfTarget, e.pfThrough, loc),
                 base)
  }

  // ---------------------------------------------------------------- the Markov prefetcher

  /** The successors recorded for each branch; training may have left any table. */
  type MarkovTable = map<Addr, seq<Addr>>

  /** A successor worth prefetching, and the cycles lost on successors that were there already. */
  datatype MarkovPick = NoPick | Pick(pc: Addr, skipped: nat)

  function PickMarkov(cfg: Config, v: Levels, successors: seq<Addr>, skipped: nat): MarkovPick
    requires cfg.Valid()
    decreases |successors|
  {
    if successors == [] then NoPick else
    var pc := successors[0];
    if pc == 0 then PickMarkov(cfg, v, successors[1..], skipped)
    else if cfg.Key1(pc) in v.l1 then PickMarkov(cfg, v, successors[1..], skipped + 1)
    else if cfg.Key2(pc) !in v.l2 then PickMarkov(cfg, v, successors[1..], skipped)
    else if cfg.KeyP(pc) in v.pb then PickMarkov(cfg, v, successors[1..], skipped + 1)
    else Pick(pc, skipped)
  }

  lemma {:induction false} PickedIsMissing(cfg: Config, v: Levels, successors: seq<Addr>, skipped: nat)
    requires cfg.Valid()
    ensures var p := PickMarkov(cfg, v, successors, skipped);
            p.Pick? ==> && p.pc in successors && p.pc != 0 && p.skipped >= skipped
                        && cfg.Key1(p.pc) !in v.l1 && cfg.Key2(p.pc) in v.l2 && cfg.KeyP(p.pc) !in v.pb
    decreases |successors|
  {
    if successors != [] {
      PickedIsMissing(cfg, v, successors[1..], skipped);
      PickedIsMissing(cfg, v, successors[1..], skipped + 1);
    }
  }

  function NextVictim(victims: seq<Option<Key>>): Option<Key> {
    if victims == [] then None else victims[0]
  }

  function LaterVictims(victims: seq<Option<Key>>): seq<Option<Key>> {
    if victims == [] then [] else victims[1..]
  }

  /** The levels with one successor prefetched, that successor, and what it was charged. */
  datatype MarkovHop = NoHop | Hop(levels: Levels, pc: Addr, charged: nat)

  /** Prefetching the successor of `pc`. The copy is charged what its trigger was charged, a cycle for
      every successor skipped, and the latency of L2 on top. */
  function HopMarkov(cfg: Config, v: Levels, now: nat, table: MarkovTable, pc: Addr, base: nat, victim: Option<Key>): MarkovHop
    requires cfg.Valid()
  {
    if pc !in table then NoHop else
    var p := PickMarkov(cfg, v, table[pc], 0);
    if p.NoPick? then NoHop else
    PickedIsMissing(cfg, v, table[pc], 0);
    var extra := base + p.skipped;
    Hop(FillBuffer(cfg, v, p.pc, v.l2[cfg.Key2(p.pc)], now + cfg.l2Latency + extra, ByMarkov(now, extra), victim),
        p.pc, cfg.l2Latency + extra)
  }

  /** Prefetching the successor of `pc`, then the successor of that, up to `depth`. */
  function MarkovFill(cfg: Config, v: Levels, now: nat, table: MarkovTable, pc: Addr, base: nat, depth: nat,
                      victims: seq<Option<Key>>): Levels
    requires cfg.Valid()
    decreases depth
  {
    match HopMarkov(cfg, v, now, table, pc, base, NextVictim(victims))
    case NoHop => v
    case Hop(filled, next, charged) =>
      if depth > 2 then MarkovFill(cfg, filled, now, table, next, charged, depth - 1, LaterVictims(victims)) else filled
  }

  // ---------------------------------------------------------------- the deferred queue

  /** How many entries at the front of the queue are due. */
  function DueCount(cfg: Config, queue: seq<Deferred>, now: nat): nat {
    if queue == [] || (!cfg.noPrefetchLatency && queue[0].issueTime > now) then 0
    else 1 + DueCount(cfg, queue[1..], now)
  }

  lemma DueInRange(cfg: Config, queue: seq<Deferred>, now: nat)
    ensures DueCount(cfg, queue, now) <= |queue|
  {
  }

  /** A due entry still belongs to a live chain. */
  predicate LiveChain(cfg: Config, g: Engine, d: Deferred)
    requires |g.chains| == cfg.maxChains
  {
    if d.chainId == 0 || cfg.maxChains == 0 then true else
    var slot := g.chains[d.chainId % cfg.maxChains];
    if slot.id != d.chainId then d.allocate else slot.remaining != 0
  }

  datatype Source = NoSource | Source(entry: Entry, latency: nat, fromL3: bool)

  function PrefetchSource(cfg: Config, v: Levels, pc: Addr): Source
    requires cfg.Valid()
  {
    if cfg.Key2(pc) in v.l2 then Source(v.l2[cfg.Key2(pc)], cfg.l2Latency, false)
    else if cfg.enableL3 && cfg.Key3(pc) in v.l3 then Source(v.l3[cfg.Key3(pc)], cfg.l3Latency, true)
    else NoSource
  }

  /** The due entry `d` leads to a prefetch being issued. */
  predicate Issues(cfg: Config, s: State, d: Deferred)
    requires cfg.Valid() && |s.engine.chains| == cfg.maxChains
  {
    && LiveChain(cfg, s.engine, d)
    && d.pc !in s.engine.demand
    && cfg.Key1(d.pc) !in s.levels.l1
    && cfg.KeyP(d.pc) !in s.levels.pb
    && PrefetchSource(cfg, s.levels, d.pc) != NoSource
  }

  /** The chain tracker after `d` was issued: its chain gets a slot if it may allocate one, and
      one prefetch of its budget is spent. */
  function Spend(cfg: Config, chains: seq<Chain>, d: Deferred): seq<Chain>
    requires |chains| == cfg.maxChains && cfg.maxChains > 0
  {
    var i := d.chainId % cfg.maxChains;
    var slot := if d.allocate && chains[i].id != d.chainId then Chain(d.chainId, d.depth) else chains[i];
    chains[i := if slot.remaining > 0 then slot.(remaining := slot.remaining - 1) else slot]
  }

  /** The chain goes on after `d`: it had a slot with budget, and there is budget left. */
  predicate Continues(cfg: Config, chains: seq<Chain>, d: Deferred)
    requires |chains| == cfg.maxChains
  {
    cfg.maxChains > 0 && Spend(cfg, chains, d)[d.chainId % cfg.maxChains].remaining > 0
  }

  function Follow(cfg: Config, s: State, blocks: BlockMap, d: Deferred, e: Entry, arrival: nat): Engine
    requires cfg.Valid()
  {
    if cfg.indirectAltBit && IsIndirect(e.kind) && e.pfTarget && e.pfThrough then s.engine else
    s.engine.(queue := DeferPair(cfg, s.levels, s.engine.queue, s.now, blocks, When(e.pfTarget, e.target),
                                 When(e.pfThrough, d.pc + cfg.minInstSize), 1,
                                 if arrival > s.now then arrival - s.now else 0, e.kind, d.chainId, false))
  }

  /** Issuing the prefetch of a due entry: the copy goes to the buffer and is charged. */
  function Issue(cfg: Config, s: State, d: Deferred, victim: Option<Key>): (r: State)
    requires cfg.Valid() && |s.engine.chains| == cfg.maxChains && Issues(cfg, s, d)
    ensures |r.engine.chains| == cfg.maxChains
  {
    var source := PrefetchSource(cfg, s.levels, d.pc);
    s.(levels := FillBuffer(cfg, s.levels, d.pc, source.entry, d.issueTime + source.latency,
                            ByFerret(source.fromL3, d.issueTime), victim),
       engine := s.engine.(issued := s.engine.issued + [d.chainId],
                           chains := if cfg.maxChains > 0 then Spend(cfg, s.engine.chains, d) else s.engine.chains))
  }

  /** Processing one due entry. */
  function ProcessOne(cfg: Config, s: State, blocks: BlockMap, d: Deferred, victim: Option<Key>): (r: State)
    requires cfg.Valid() && |s.engine.chains| == cfg.maxChains
    ensures |r.engine.chains| == cfg.maxChains
  {
    if !Issues(cfg, s, d) then s else
    var source := PrefetchSource(cfg, s.levels, d.pc);
    var issued := Issue(cfg, s, d, victim);
    if Continues(cfg, s.engine.chains, d)
    then issued.(engine := Follow(cfg, issued, blocks, d, source.entry, d.issueTime + source.latency))
    else issued
  }

  /** Processing due entries in order; `victims` are the buffer ways picked along the way. */
  function ProcessAll(cfg: Config, s: State, blocks: BlockMap, due: seq<Deferred>, victims: seq<Option<Key>>): (r: State)
    requires cfg.Valid() && |s.engine.chains| == cfg.maxChains && |victims| == |due|
    ensures |r.engine.chains| == cfg.maxChains
    decreases |due|
  {
    if due == [] then s
    else ProcessAll(cfg, ProcessOne(cfg, s, blocks, due[0], victims[0]), blocks, due[1..], victims[1..])
  }

  /** One clock cycle: the due prefetches are processed, and the cycle ends. */
  function Cycle(cfg: Config, s: State, blocks: BlockMap, victims: seq<Option<Key>>): State
    requires cfg.Valid() && |s.engine.chains| == cfg.maxChains
    requires |victims| == DueCount(cfg, s.engine.queue, s.now)
  {
    DueInRange(cfg, s.engine.queue, s.now);
    var n := DueCount(cfg, s.engine.queue, s.now);
    var popped := s.(engine := s.engine.(queue := s.engine.queue[n..]));
    var done := ProcessAll(cfg, popped, blocks, s.engine.queue[..n], victims);
    done.(engine := done.engine.(demand := {}), now := s.now + 1)
  }
}
