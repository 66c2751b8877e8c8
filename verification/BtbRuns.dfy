/** Operations of the branch target buffer, and runs of them. */
module BtbRuns {
  import opened Wrappers
  import opened AssociativeCache
  import opened BtbModel

  datatype Op =
    | LookupOp(pc: Addr, kind: BranchType, taken: bool, basePrediction: bool, blockStart: Addr,
               bbMap: Option<BlockMap>, markov: MarkovTable, w: Victims, fills: seq<Option<Key>>)
    | UpdateOp(pc: Addr, target: Addr, kind: BranchType, w: Victims)
    | CommitOp(pc: Addr, taken: bool)
    | DirectionOp(pc: Addr, taken: bool)
    | CycleOp(blocks: BlockMap, victims: seq<Option<Key>>)
    | InvalidateOp

  function Init(cfg: Config): State {
    State(Levels(map[], map[], map[], map[]),
          Engine([], seq(cfg.maxChains, _ => Chain(0, 0)), 1, {}, false, false, []), None, 0)
  }

  /** Training at lookup: the previous branch learns which of its successors was fetched. */
  function TrainOnLookup(cfg: Config, s: State, blockStart: Addr): Levels
    requires cfg.Valid()
  {
    if cfg.trainBitsOnLookup && blockStart != 0 && s.prevBlock.Some?
       && cfg.Key1(s.prevBlock.value.branchPC) in s.levels.l1
    then
      var prev, k := s.prevBlock.value, cfg.Key1(s.prevBlock.value.branchPC);
      var e := s.levels.l1[k];
      s.levels.(l1 := s.levels.l1[k := e.(pfTarget := e.pfTarget || blockStart == prev.target,
                                          pfThrough := e.pfThrough || blockStart == prev.fallThrough)])
    else s.levels
  }

  function TriggerAt(hit: HitLevel): Location
    requires hit != Nowhere
  {
    match hit
    case InL1 => AtL1
    case InBuffer => AtBuffer
    case InL2 => AtL2
    case InL3 => AtL3
  }

  /** The latency already spent before a prefetch triggered by this lookup can be issued. */
  function TriggerBase(cfg: Config, hit: HitLevel, e: Entry, now: nat): nat {
    match hit
    case InBuffer => Remaining(cfg, e, now)
    case InL2 => cfg.l2Latency
    case InL3 => cfg.l3Latency
    case _ => 0
  }

  /** The block that the next lookup trains. */
  function Remembered(cfg: Config, s: State, op: Op, e: Entry): Option<PrevBlock>
    requires op.LookupOp?
  {
    if cfg.trainBitsOnLookup && op.blockStart != 0
    then Some(PrevBlock(op.pc, e.target, op.pc + cfg.minInstSize)) else s.prevBlock
  }

  /** The Markov prefetcher follows hits in the buffer and in L2; it is charged what the hit took. */
  function AfterMarkov(cfg: Config, s: State, op: Op, hit: HitLevel, e: Entry): Levels
    requires cfg.Valid() && op.LookupOp?
  {
    if cfg.limitedMarkov && (hit == InBuffer || hit == InL2)
    then MarkovFill(cfg, s.levels, s.now, op.markov, op.pc, TriggerBase(cfg, hit, e, s.now), cfg.prefetchDepth, op.fills)
    else s.levels
  }

  /** What a hit leaves behind, the entry already moved to L1: perhaps Markov prefetches, perhaps a
      prefetch chain, and the block to train next. */
  function AfterHit(cfg: Config, s: State, op: Op, hit: HitLevel, e: Entry): State
    requires cfg.Valid() && op.LookupOp? && hit != Nowhere
  {
    var direction := if hit == InL1 || hit == InBuffer then op.basePrediction else op.taken;
    State(AfterMarkov(cfg, s, op, hit, e),
          Trigger(cfg, s.levels, s.engine, s.now, op.bbMap, op.pc, op.kind, e, direction, TriggerAt(hit),
                  TriggerBase(cfg, hit, e, s.now), hit != InL1),
          Remembered(cfg, s, op, e), s.now)
  }

  /** A lookup. When it throws, the branch is recorded and trained, and nothing is moved yet. */
  function Lookup(cfg: Config, s: State, op: Op): State
    requires cfg.Valid() && op.LookupOp?
  {
    var v := TrainOnLookup(cfg, s, op.blockStart);
    var g := s.engine.(demand := s.engine.demand + {op.pc});
    var hit := FirstHit(cfg, v, op.pc);
    if hit == Nowhere then s.(levels := v, engine := g) else
    var e := HitEntry(cfg, v, op.pc);
    if AnswerOf(cfg, hit, e, s.now) == Threw
    then s.(levels := v, engine := g, prevBlock := Remembered(cfg, s, op, e))
    else AfterHit(cfg, s.(levels := Promote(cfg, v, op.pc, op.w), engine := g), op, hit, e)
  }

  function TrainOnCommit(cfg: Config, v: Levels, pc: Addr, taken: bool): Levels
    requires cfg.Valid()
  {
    var k := cfg.Key1(pc);
    if !cfg.trainBitsOnCommit || k !in v.l1 then v else
    var e := v.l1[k];
    var keep := !cfg.cleanBitsOnL1Promotion;
    v.(l1 := v.l1[k := e.(pfTarget := taken || (keep && e.pfTarget), pfThrough := !taken || (keep && e.pfThrough))])
  }

  /** The two-bit direction counter of an L1 entry. */
  function UpdateDirection(cfg: Config, v: Levels, pc: Addr, taken: bool): Levels
    requires cfg.Valid()
  {
    var k := cfg.Key1(pc);
    if k !in v.l1 then v else
    var e := v.l1[k];
    var dir := if taken then (if e.dir >= 3 then 3 else e.dir + 1) else if e.dir == 0 then 0 else e.dir - 1;
    v.(l1 := v.l1[k := e.(dir := dir)])
  }

  predicate Enabled(cfg: Config, s: State, op: Op) {
    && |s.engine.chains| == cfg.maxChains
    && (op.CycleOp? ==> |op.victims| == DueCount(cfg, s.engine.queue, s.now))
  }

  function Step(cfg: Config, s: State, op: Op): State
    requires cfg.Valid() && Enabled(cfg, s, op)
  {
    match op
    case LookupOp(_, _, _, _, _, _, _, _, _) => Lookup(cfg, s, op)
    case UpdateOp(pc, target, kind, w) => s.(levels := Update(cfg, s.levels, pc, target, kind, w))
    case CommitOp(pc, taken) => s.(levels := TrainOnCommit(cfg, s.levels, pc, taken))
    case DirectionOp(pc, taken) => s.(levels := UpdateDirection(cfg, s.levels, pc, taken))
    case CycleOp(blocks, victims) => Cycle(cfg, s, blocks, victims)
    case InvalidateOp =>
      s.(levels := Levels(map[], map[], map[], if cfg.enableL3 then map[] else s.levels.l3),
         engine := s.engine.(queue := [], chains := seq(cfg.maxChains, _ => Chain(0, 0))))
  }

  ghost predicate Legal(cfg: Config, s: State, ops: seq<Op>)
    requires cfg.Valid()
    decreases |ops|
  {
    ops == [] || (Enabled(cfg, s, ops[0]) && Legal(cfg, Step(cfg, s, ops[0]), ops[1..]))
  }

  ghost function Run(cfg: Config, s: State, ops: seq<Op>): State
    requires cfg.Valid() && Legal(cfg, s, ops)
    decreases |ops|
  {
    if ops == [] then s else Run(cfg, Step(cfg, s, ops[0]), ops[1..])
  }

  // ---------------------------------------------------------------- what replacement policies can do

  /** The victims below L1 are possible when `e` leaves it from slot `k`. */
  predicate PicksBelow(cfg: Config, v: Levels, k: Key, w: Victims)
    requires cfg.Valid() && k in v.l1
  {
    var e := v.l1[k];
    && (cfg.Key2(e.branchAddr) !in v.l2 ==>
          && Picks(cfg.g2, v.l2.Keys, cfg.Key2(e.branchAddr), w.l2)
          && (w.l2.Some? && w.l2.value in v.l2 && cfg.enableL3 ==>
                PicksL3(cfg, v.l3, v.l2[w.l2.value].branchAddr, w.l3)))
    && (cfg.nonexclusive && cfg.enableL3 ==> PicksL3(cfg, DemoteL1(cfg, v, k, w).l3, e.branchAddr, w.l3Mirror))
  }

  predicate PicksL3(cfg: Config, l3: Level, pc: Addr, victim: Option<Key>)
    requires cfg.Valid()
  {
    cfg.Key3(pc) !in l3 ==> Picks(cfg.g3, l3.Keys, cfg.Key3(pc), victim)
  }

  /** The victims are possible when room is made in L1 for `pc`. */
  predicate PicksRoom(cfg: Config, v: Levels, pc: Addr, w: Victims)
    requires cfg.Valid()
  {
    && Picks(cfg.g1, v.l1.Keys, cfg.Key1(pc), w.l1)
    && (w.l1.Some? && w.l1.value in v.l1 ==> PicksBelow(cfg, v, w.l1.value, w))
  }

  predicate PicksFill(cfg: Config, v: Levels, pc: Addr, victim: Option<Key>)
    requires cfg.Valid()
  {
    Picks(cfg.gp, v.pb.Keys, cfg.KeyP(pc), victim)
  }

  predicate PicksMarkov(cfg: Config, v: Levels, now: nat, table: MarkovTable, pc: Addr, base: nat, depth: nat,
                        victims: seq<Option<Key>>)
    requires cfg.Valid()
    decreases depth
  {
    match HopMarkov(cfg, v, now, table, pc, base, NextVictim(victims))
    case NoHop => true
    case Hop(filled, next, charged) =>
      && PicksFill(cfg, v, next, NextVictim(victims))
      && (depth > 2 ==> PicksMarkov(cfg, filled, now, table, next, charged, depth - 1, LaterVictims(victims)))
  }

  predicate PicksDue(cfg: Config, s: State, blocks: BlockMap, due: seq<Deferred>, victims: seq<Option<Key>>)
    requires cfg.Valid() && |s.engine.chains| == cfg.maxChains && |victims| == |due|
    decreases |due|
  {
    due != [] ==>
      && (Issues(cfg, s, due[0]) ==> PicksFill(cfg, s.levels, due[0].pc, victims[0]))
      && PicksDue(cfg, ProcessOne(cfg, s, blocks, due[0], victims[0]), blocks, due[1..], victims[1..])
  }

  /** The levels in which a lookup makes room for what it found. */
  function RoomAt(cfg: Config, v: Levels, pc: Addr): Levels
    requires cfg.Valid()
  {
    match FirstHit(cfg, v, pc)
    case InL2 => WithoutL2(cfg, v, cfg.Key2(pc))
    case InL3 => WithoutL3(cfg, v, cfg.Key3(pc))
    case _ => v
  }

  /** Every victim of the operation is one that the arrays can give up. */
  predicate Realistic(cfg: Config, s: State, op: Op)
    requires cfg.Valid() && Enabled(cfg, s, op)
  {
    match op
    case UpdateOp(pc, _, _, w) => cfg.Key1(pc) !in s.levels.l1 ==> PicksRoom(cfg, s.levels, pc, w)
    case LookupOp(pc, _, _, _, blockStart, _, table, w, fills) =>
      var v := TrainOnLookup(cfg, s, blockStart);
      var hit := FirstHit(cfg, v, pc);
      hit != Nowhere && hit != InL1 && LookupAnswer(cfg, v, s.now, pc) != Threw ==>
        && PicksRoom(cfg, RoomAt(cfg, v, pc), pc, w)
        && (cfg.limitedMarkov && hit != InL3 ==>
              PicksMarkov(cfg, Promote(cfg, v, pc, w), s.now, table, pc,
                          TriggerBase(cfg, hit, HitEntry(cfg, v, pc), s.now), cfg.prefetchDepth, fills))
    case CycleOp(blocks, victims) =>
      DueInRange(cfg, s.engine.queue, s.now);
      var n := DueCount(cfg, s.engine.queue, s.now);
      PicksDue(cfg, s.(engine := s.engine.(queue := s.engine.queue[n..])), blocks, s.engine.queue[..n], victims)
    case _ => true
  }

  ghost predicate RealisticRun(cfg: Config, s: State, ops: seq<Op>)
    requires cfg.Valid() && Legal(cfg, s, ops)
    decreases |ops|
  {
    ops == [] || (Realistic(cfg, s, ops[0]) && RealisticRun(cfg, Step(cfg, s, ops[0]), ops[1..]))
  }
}
